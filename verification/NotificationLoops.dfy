/**
 `send`, `complete` and the generated `next` as the code that runs them (zel_core/src/protocol/client.rs,
 zel_macros/src/render/types.rs, zel_core/src/protocol/streaming.rs): each is proved to take the steps of
 Notification and no others, whatever the other side does between its atomic actions.

 What the other side does is given as lists of events; those that are impossible when their turn comes are
 passed over.
 */
module NotificationLoops {
  import opened Wrappers
  import opened Notification

  datatype Party = TheClient | TheServer

  /** The events only this party brings about. */
  predicate Acts<P>(p: Party, e: Event<P>) {
    var client := e.ReadResponse? || e.MissResponse? || e.ReadEstablished? || e.MissEstablished? || e.SendData?
                  || e.ReadAck? || e.MissAck? || e.Complete? || e.DropSender? || e.Intrude?;
    if p.TheClient? then client else !client
  }

  ghost predicate Foreign<P>(p: Party, es: seq<Event<P>>) {
    forall e <- es :: !Acts(p, e)
  }

  /** What the other side may have changed between two actions of a party: the frames on their way to it are
      still there, and perhaps more. */
  predicate Undisturbed<P(==), T(==)>(p: Party, s: Session<P, T>, t: Session<P, T>) {
    match p
    case TheClient =>
      && t.client == s.client && s.down <= t.down
      && t.sent == s.sent && t.okSends == s.okSends && t.failedSends == s.failedSends && t.upClosed == s.upClosed
    case TheServer =>
      && t.server == s.server && s.up <= t.up
      && t.consumed == s.consumed && t.returned == s.returned && t.ends == s.ends
  }

  lemma OtherDoesNotDisturb<P, T>(decode: P -> Option<T>, key: Key, p: Party, s: Session<P, T>, e: Event<P>)
    requires Step(decode, key, s, e).Some? && !Acts(p, e)
    ensures Undisturbed(p, s, Step(decode, key, s, e).value)
  {
  }

  lemma RunExtended<P, T>(decode: P -> Option<T>, key: Key, es: seq<Event<P>>, e: Event<P>)
    ensures Run(decode, key, es + [e]) ==
            if Run(decode, key, es).None? then None else Step(decode, key, Run(decode, key, es).value, e)
  {
    assert (es + [e])[..|es|] == es;
  }

  /** What reading one frame does to the server's side. */
  lemma FrameRead<P, T>(decode: P -> Option<T>, key: Key, s: Session<P, T>)
    requires s.server.Receiving? && s.up != []
    ensures var f := s.up[0];
            var t := s.(up := s.up[1..]);
            Step(decode, key, s, ReadFrame) == Some(
              if f.Message? && f.msg.Data? then
                var u := t.(consumed := s.consumed + [f.msg.data]);
                match decode(f.msg.data)
                case Some(item) => u.(server := Acking(item))
                case None => u.(returned := s.returned + [None])
              else if f.Message? && (f.msg.Completed? || f.msg.ServerShutdown?) then t.(ends := s.ends + 1)
              else t)
  {
    assert s.consumed + [] == s.consumed;
  }

  /** An event takes place if it can, and is passed over if not. */
  function Goes<P, T>(decode: P -> Option<T>, key: Key, s: Session<P, T>, e: Event<P>): Session<P, T> {
    var t := Step(decode, key, s, e);
    if t.None? then s else t.value
  }

  /** The session after the other side has had its turn. */
  function After<P, T>(decode: P -> Option<T>, key: Key, s: Session<P, T>, others: seq<Event<P>>): Session<P, T> {
    if others == [] then s
    else Goes(decode, key, After(decode, key, s, others[..|others| - 1]), others[|others| - 1])
  }

  /** What a read gives once no frame is left, or instead of one. */
  datatype Reading = Waits | Ends | Fails

  /** One turn of the loop in `next`: what the client does before the frame is read and before it is
      acknowledged, whether the read fails, and whether the acknowledgment can be written. */
  datatype Turn<P> = Turn(beforeRead: seq<Event<P>>, lost: bool, beforeAck: seq<Event<P>>, ackOpen: bool)
  {
    ghost predicate ByClient() {
      Foreign(TheServer, beforeRead) && Foreign(TheServer, beforeAck)
    }
  }

  /** What `next` gives, once it returns. */
  type NextResult<T> = Option<Result<T, ReceiveError>>

  /** What one turn of the loop in `next` should come to: None if it goes round or waits. */
  function TurnOutcome<P, T>(decode: P -> Option<T>, key: Key, s: Session<P, T>, turn: Turn<P>)
    : (Option<NextResult<T>>, Session<P, T>)
  {
    var t := After(decode, key, s, turn.beforeRead);
    if turn.lost then (Some(Some(Err(Receive))), t)
    else if t.up == [] && t.upClosed then (Some(None), t.(ends := t.ends + 1))
    else if t.up == [] then (None, t)
    else
      var read := Goes(decode, key, t, ReadFrame);
      match t.up[0]
      case Malformed => (Some(Some(Err(Deserialization))), read)
      case Message(Data(p)) =>
        if decode(p).None? then (Some(Some(Err(Deserialization))), read)
        else
          var u := After(decode, key, read, turn.beforeAck);
          if turn.ackOpen then (Some(Some(Ok(decode(p).value))), Goes(decode, key, u, SendAck))
          else (Some(Some(Err(ReceiveError.Send))), Goes(decode, key, u, FailAck))
      case Message(Completed) => (Some(None), read)
      case Message(ServerShutdown) => (Some(None), read)
      case Message(_) => (None, read)
  }

  /** And a call of `next`, turn after turn. */
  function NextOutcome<P, T>(decode: P -> Option<T>, key: Key, s: Session<P, T>, turns: seq<Turn<P>>)
    : (Option<NextResult<T>>, Session<P, T>)
    decreases |turns|
  {
    if turns == [] then (None, s)
    else
      var (r, t) := TurnOutcome(decode, key, s, turns[0]);
      if r.Some? then (r, t) else NextOutcome(decode, key, t, turns[1..])
  }

  /** An error of `next` has its cause: a read that failed, an acknowledgment that could not be written, or a
      frame or payload that could not be decoded. */
  lemma {:induction false} NextFailsWithCause<P, T>(
    decode: P -> Option<T>, key: Key, s: Session<P, T>, turns: seq<Turn<P>>)
    ensures match NextOutcome(decode, key, s, turns).0
            case Some(Some(Err(Receive))) => exists i :: 0 <= i < |turns| && turns[i].lost
            case Some(Some(Err(Send))) => exists i :: 0 <= i < |turns| && !turns[i].lost && !turns[i].ackOpen
            case Some(Some(Err(Deserialization))) => exists i :: 0 <= i < |turns| && !turns[i].lost
            case _ => true
    decreases |turns|
  {
    if turns != [] {
      hide After, Goes, Step;
      var (r, t) := TurnOutcome(decode, key, s, turns[0]);
      if r.None? {
        NextFailsWithCause(decode, key, t, turns[1..]);
        assert forall i :: 0 <= i < |turns[1..]| ==> turns[1..][i] == turns[i + 1];
      }
    }
  }

  /** What a result of `next` says about the payload it took, if any. */
  ghost predicate Explains<P, T>(decode: P -> Option<T>, s: Session<P, T>, t: Session<P, T>, r: NextResult<T>)
  {
    match r
    case None => t.ends == s.ends + 1 && t.consumed == s.consumed && t.returned == s.returned
    case Some(Ok(item)) =>
      TookOne(s, t) && t.returned == s.returned + [Some(item)] && decode(t.consumed[|s.consumed|]) == Some(item)
    case Some(Err(Send)) =>
      TookOne(s, t) && t.returned == s.returned + [None] && decode(t.consumed[|s.consumed|]).Some?
    case Some(Err(Receive)) => Untouched(s, t)
    case Some(Err(Deserialization)) =>
      || Untouched(s, t)
      || (TookOne(s, t) && t.returned == s.returned + [None] && decode(t.consumed[|s.consumed|]).None?)
  }

  ghost predicate TookOne<P, T>(s: Session<P, T>, t: Session<P, T>) {
    t.ends == s.ends && |t.consumed| == |s.consumed| + 1 && s.consumed <= t.consumed
  }

  ghost predicate Untouched<P, T>(s: Session<P, T>, t: Session<P, T>) {
    t.ends == s.ends && t.consumed == s.consumed && t.returned == s.returned
  }

  /** Both sides of a session.  The trace, and what was sent, taken and returned, are history. */
  class Exchange<P(==), T(==)> {
    const decode: P -> Option<T>
    const key: Key
    var client: Client
    var server: Server<T>
    var response: seq<bool>
    var up: seq<Frame<P>>
    var upClosed: bool
    var down: seq<Frame<P>>
    var sent: seq<P>
    var okSends: nat
    var failedSends: nat
    var consumed: seq<P>
    var returned: seq<Option<T>>
    var ends: nat
    ghost var trace: seq<Event<P>>

    function View(): Session<P, T>
      reads this
    {
      Session(client, server, response, up, upClosed, down, sent, okSends, failedSends, consumed, returned, ends)
    }

    /** Everything that has happened is a run. */
    ghost predicate Valid()
      reads this
    {
      Run(decode, key, trace) == Some(View())
    }

    constructor (decode: P -> Option<T>, key: Key)
      ensures Valid() && trace == [] && this.decode == decode && this.key == key
    {
      this.decode, this.key := decode, key;
      client, server, response, up, upClosed, down := Connecting, Requested, [], [], false, [];
      sent, okSends, failedSends, consumed, returned, ends := [], 0, 0, [], [], 0;
      trace := [];
    }

    ghost method Record(e: Event<P>, before: Session<P, T>)
      requires Run(decode, key, trace) == Some(before) && Step(decode, key, before, e) == Some(View())
      modifies this`trace
      ensures Valid() && trace == old(trace) + [e]
    {
      RunExtended(decode, key, trace, e);
      trace := trace + [e];
    }

    /** One event of the other side, if it is possible. */
    method OtherActs(e: Event<P>, ghost p: Party)
      requires Valid() && !Acts(p, e)
      modifies this
      ensures Valid() && old(trace) <= trace && Undisturbed(p, old(View()), View())
      ensures View() == Goes(decode, key, old(View()), e)
    {
      var next := Step(decode, key, View(), e);
      if next.Some? {
        ghost var before := View();
        OtherDoesNotDisturb(decode, key, p, before, e);
        hide Step, Run;
        Become(next.value);
        Record(e, before);
      }
    }

    method Become(t: Session<P, T>)
      modifies this
      ensures View() == t && trace == old(trace)
    {
      client, server, response, up, upClosed, down := t.client, t.server, t.response, t.up, t.upClosed, t.down;
      Remember(t);
    }

    method Remember(t: Session<P, T>)
      modifies this`sent, this`okSends, this`failedSends, this`consumed, this`returned, this`ends
      ensures sent == t.sent && okSends == t.okSends && failedSends == t.failedSends
      ensures consumed == t.consumed && returned == t.returned && ends == t.ends
    {
      sent, okSends, failedSends := t.sent, t.okSends, t.failedSends;
      consumed, returned, ends := t.consumed, t.returned, t.ends;
    }

    method Interfere(others: seq<Event<P>>, ghost p: Party)
      requires Valid() && Foreign(p, others)
      modifies this
      ensures Valid() && old(trace) <= trace && Undisturbed(p, old(View()), View())
      ensures View() == After(decode, key, old(View()), others)
    {
      assert others[..|others|] == others;
      for i := 0 to |others|
        invariant View() == After(decode, key, old(View()), others[..i])
        invariant Valid() && old(trace) <= trace && Undisturbed(p, old(View()), View())
      {
        OtherActs(others[i], p);
        assert others[..i + 1][..i] == others[..i];
      }
    }

    // ---------------------------------------------------------------------------------------------
    // The client
    // ---------------------------------------------------------------------------------------------

    method WriteData(data: P)
      requires Valid() && client.Idle?
      modifies this
      ensures Valid() && trace == old(trace) + [SendData(data)]
      ensures Some(View()) == Step(decode, key, old(View()), SendData(data))
      ensures View() == Goes(decode, key, old(View()), SendData(data))
      ensures client.Awaiting? && sent == old(sent) + [data]
      ensures okSends == old(okSends) && failedSends == old(failedSends)
    {
      hide Run;
      ghost var before := View();
      up := up + [Message(Data(data))];
      client, sent := Awaiting, sent + [data];
      Record(SendData(data), before);
    }

    /** The frame taken for the acknowledgment, read as `send` reads it. */
    method TakeAck() returns (r: Result<(), SendError>)
      requires Valid() && client.Awaiting? && down != []
      modifies this
      ensures Valid() && trace == old(trace) + [ReadAck]
      ensures Some(View()) == Step(decode, key, old(View()), ReadAck)
      ensures View() == Goes(decode, key, old(View()), ReadAck)
      ensures client.Idle? && sent == old(sent)
      ensures if r.Ok? then okSends == old(okSends) + 1 && failedSends == old(failedSends)
              else okSends == old(okSends) && failedSends == old(failedSends) + 1
      ensures match old(down)[0]
              case Malformed => r == Err(Serialization)
              case Message(Ack) => r.Ok?
              case Message(Error(m)) => r == Err(ServerError(m))
              case Message(_) => r == Err(UnexpectedMessage)
    {
      hide Run;
      ghost var before := View();
      var frame := down[0];
      down := down[1..];
      match frame {
        case Malformed => r := Err(Serialization);
        case Message(msg) =>
          match msg {
            case Ack => r := Ok(());
            case Error(m) => r := Err(ServerError(m));
            case _ => r := Err(UnexpectedMessage);
          }
      }
      client := Idle;
      if r.Ok? {
        okSends := okSends + 1;
      } else {
        failedSends := failedSends + 1;
      }
      Record(ReadAck, before);
    }

    method LoseAck()
      requires Valid() && client.Awaiting?
      modifies this
      ensures Valid() && trace == old(trace) + [MissAck]
      ensures Some(View()) == Step(decode, key, old(View()), MissAck)
      ensures View() == Goes(decode, key, old(View()), MissAck)
      ensures client.Idle? && sent == old(sent) && okSends == old(okSends) && failedSends == old(failedSends) + 1
    {
      hide Run;
      ghost var before := View();
      client, failedSends := Idle, failedSends + 1;
      Record(MissAck, before);
    }

    /** The session when `send` comes to its read. */
    ghost function Sending(data: P, others: seq<Event<P>>): Session<P, T>
      reads this
    {
      After(decode, key, Goes(decode, key, View(), SendData(data)), others)
    }

    /** `NotificationSender::send`.  What it returns is decided by what is there when it reads: a read that fails
        is a connection error, a frame is taken and decides by itself, the end of the stream means that no
        acknowledgment came; otherwise it still waits (None). */
    method Send(data: P, writable: bool, others: seq<Event<P>>, reading: Reading)
      returns (r: Option<Result<(), SendError>>)
      requires Valid() && client.Idle? && Foreign(TheClient, others)
      modifies this
      ensures Valid()
      ensures !writable ==> r == Some(Err(SendError.Connection)) && View() == old(View()) && trace == old(trace)
      ensures writable ==> old(trace) + [SendData(data)] <= trace && sent == old(sent) + [data]
      ensures writable ==>
                okSends == old(okSends) + (if r.Some? && r.value.Ok? then 1 else 0)
                && failedSends == old(failedSends) + (if r.Some? && r.value.Err? then 1 else 0)
      ensures writable && reading.Fails? ==>
                r == Some(Err(SendError.Connection)) && View() == Goes(decode, key, old(Sending(data, others)), MissAck)
      ensures var there := old(Sending(data, others)).down;
              writable && !reading.Fails? && there != [] ==>
                && View() == Goes(decode, key, old(Sending(data, others)), ReadAck)
                && r.Some?
                && match there[0]
                   case Malformed => r.value == Err(Serialization)
                   case Message(Ack) => r.value.Ok?
                   case Message(Error(m)) => r.value == Err(ServerError(m))
                   case Message(_) => r.value == Err(UnexpectedMessage)
      ensures writable && reading.Ends? && old(Sending(data, others)).down == [] ==>
                r == Some(Err(NoAcknowledgment)) && View() == Goes(decode, key, old(Sending(data, others)), MissAck)
      ensures writable && reading.Waits? && old(Sending(data, others)).down == [] ==>
                r == None && View() == old(Sending(data, others))
    {
      hide Run, Step, After, Goes;
      if !writable {
        return Some(Err(SendError.Connection));
      }
      WriteData(data);
      Interfere(others, TheClient);
      if reading.Fails? {
        LoseAck();
        return Some(Err(SendError.Connection));
      }
      if down != [] {
        var taken := TakeAck();
        return Some(taken);
      }
      if reading.Ends? {
        LoseAck();
        return Some(Err(NoAcknowledgment));
      }
      r := None;
    }

    /** `NotificationSender::complete`. */
    method Complete(writable: bool) returns (r: Result<(), SendError>)
      requires Valid() && client.Idle?
      modifies this
      ensures Valid()
      ensures writable ==> r.Ok? && Some(View()) == Step(decode, key, old(View()), Event.Complete)
      ensures !writable ==> r == Err(SendError.Connection) && client.Done? && up == old(up) && upClosed
    {
      hide Run;
      ghost var before := View();
      if writable {
        up := up + [Message(Completed)];
        r := Ok(());
      } else {
        r := Err(SendError.Connection);
      }
      client, upClosed := Done, true;
      Record(if writable then Event.Complete else DropSender, before);
    }

    // ---------------------------------------------------------------------------------------------
    // The receiver
    // ---------------------------------------------------------------------------------------------

    /** `NotificationSink::ack` for the item just decoded. */
    method Acknowledge(open: bool) returns (r: Result<(), ReceiveError>)
      requires Valid() && server.Acking?
      modifies this
      ensures Valid() && trace == old(trace) + [if open then SendAck else FailAck]
      ensures Some(View()) == Step(decode, key, old(View()), if open then SendAck else FailAck)
      ensures View() == Goes(decode, key, old(View()), if open then SendAck else FailAck)
      ensures r == if open then Ok(()) else Err(ReceiveError.Send)
    {
      hide Run;
      ghost var before := View();
      if open {
        down := down + [Message(Ack)];
        returned := returned + [Some(server.item)];
        r := Ok(());
      } else {
        returned := returned + [None];
        r := Err(ReceiveError.Send);
      }
      server := Receiving;
      Record(if open then SendAck else FailAck, before);
    }

    method DecodeItem(data: P) returns (r: Option<NextResult<T>>)
      modifies this`consumed, this`returned, this`server
      ensures consumed == old(consumed) + [data]
      ensures match decode(data)
              case Some(item) => r == None && server == Acking(item) && returned == old(returned)
              case None =>
                && r == Some(Some(Err(Deserialization)))
                && server == old(server) && returned == old(returned) + [None]
    {
      consumed := consumed + [data];
      match decode(data) {
        case Some(item) =>
          server := Acking(item);
          r := None;
        case None =>
          returned := returned + [None];
          r := Some(Some(Err(Deserialization)));
      }
    }

    /** What the loop does with one frame, up to the acknowledgment; None: it goes round again, or has an item
        to acknowledge. */
    method HandleFrame() returns (r: Option<NextResult<T>>)
      requires Valid() && server.Receiving? && up != []
      modifies this
      ensures Valid() && trace == old(trace) + [ReadFrame]
      ensures Some(View()) == Step(decode, key, old(View()), ReadFrame)
      ensures View() == Goes(decode, key, old(View()), ReadFrame)
      ensures match old(up)[0]
              case Malformed => r == Some(Some(Err(Deserialization)))
              case Message(Data(p)) =>
                if decode(p).None? then r == Some(Some(Err(Deserialization))) && server.Receiving?
                else r == None && server == Acking(decode(p).value)
              case Message(Completed) => r == Some(None) && server.Receiving?
              case Message(ServerShutdown) => r == Some(None) && server.Receiving?
              case Message(_) => r == None && server.Receiving?
    {
      hide Run;
      ghost var before := View();
      FrameRead(decode, key, before);
      hide Step;
      var frame := up[0];
      up := up[1..];
      r := None;
      match frame {
        case Malformed => r := Some(Some(Err(Deserialization)));
        case Message(msg) =>
          match msg {
            case Data(data) => r := DecodeItem(data);
            case Completed =>
              ends := ends + 1;
              r := Some(None);
            case ServerShutdown =>
              ends := ends + 1;
              r := Some(None);
            case _ =>
          }
      }
      Record(ReadFrame, before);
    }

    /** No frame could be read: the stream has ended, or failed. */
    method ReadNothing(failed: bool) returns (r: NextResult<T>)
      requires Valid() && server.Receiving? && (failed || (up == [] && upClosed))
      modifies this
      ensures Valid() && trace == old(trace) + [if failed then FailRead else ReadEnd]
      ensures server.Receiving? && Explains(decode, old(View()), View(), r)
      ensures if failed then r == Some(Err(Receive)) && View() == old(View())
              else r == None && View() == old(View()).(ends := old(ends) + 1)
    {
      hide Run;
      ghost var before := View();
      if failed {
        r := Some(Err(Receive));
      } else {
        ends := ends + 1;
        r := None;
      }
      Record(if failed then FailRead else ReadEnd, before);
    }

    /** One turn of the loop in `next`; None: it goes round again, or waits for a frame. */
    method NextTurn(turn: Turn<P>) returns (r: Option<NextResult<T>>)
      requires Valid() && server.Receiving? && turn.ByClient()
      modifies this
      ensures Valid() && old(trace) <= trace && server.Receiving?
      ensures (r, View()) == TurnOutcome(decode, key, old(View()), turn)
      ensures r.Some? ==> Explains(decode, old(View()), View(), r.value)
      ensures r.None? ==> Untouched(old(View()), View())
    {
      hide Run, After, Goes;
      Interfere(turn.beforeRead, TheServer);
      if turn.lost || (up == [] && upClosed) {
        var nothing := ReadNothing(turn.lost);
        return Some(nothing);
      }
      if up == [] {
        return None;
      }
      r := HandleFrame();
      if server.Acking? {
        r := Deliver(turn);
      }
    }

    method Deliver(turn: Turn<P>) returns (r: Option<NextResult<T>>)
      requires Valid() && server.Acking? && turn.ByClient()
      modifies this
      ensures Valid() && old(trace) <= trace && server.Receiving?
      ensures consumed == old(consumed) && ends == old(ends)
      ensures View() == Goes(decode, key, After(decode, key, old(View()), turn.beforeAck),
                             if turn.ackOpen then SendAck else FailAck)
      ensures if turn.ackOpen then
                r == Some(Some(Ok(old(server).item))) && returned == old(returned) + [Some(old(server).item)]
              else r == Some(Some(Err(ReceiveError.Send))) && returned == old(returned) + [None]
    {
      hide Run, After, Goes;
      var item := server.item;
      Interfere(turn.beforeAck, TheServer);
      var acked := Acknowledge(turn.ackOpen);
      match acked {
        case Ok(_) => r := Some(Some(Ok(item)));
        case Err(e) => r := Some(Some(Err(e)));
      }
    }

    /** The generated `next`: frames are skipped until one decides - an item, acknowledged before it is
        returned, an error, or the end.  None: still waiting, or the turns ran out. */
    method Next(turns: seq<Turn<P>>) returns (r: Option<NextResult<T>>)
      requires Valid() && server.Receiving? && forall turn <- turns :: turn.ByClient()
      modifies this
      ensures Valid() && old(trace) <= trace && server.Receiving?
      ensures (r, View()) == NextOutcome(decode, key, old(View()), turns)
      ensures r.Some? ==> Explains(decode, old(View()), View(), r.value)
      ensures r.None? ==> Untouched(old(View()), View())
    {
      hide Run, TurnOutcome;
      r := None;
      assert turns[0..] == turns;
      for i := 0 to |turns|
        invariant Valid() && old(trace) <= trace && server.Receiving?
        invariant r.None? && Untouched(old(View()), View())
        invariant NextOutcome(decode, key, old(View()), turns) == NextOutcome(decode, key, View(), turns[i..])
      {
        assert turns[i..][0] == turns[i] && turns[i..][1..] == turns[i + 1..];
        r := NextTurn(turns[i]);
        if r.Some? {
          return;
        }
      }
    }
  }
}
