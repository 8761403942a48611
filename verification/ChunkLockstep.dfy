/**
 The chunk protocol with both sides at once (zel_core/examples/raw_stream_example.rs): after each chunk the
 client waits for its acknowledgment before it writes the next.  Every write and every read is one event;
 no transport fails, and when the handler returns its stream ends.
 */
module ChunkLockstep {
  import opened Wrappers
  import opened ChunkFraming

  datatype Client =
    | Top(i: nat)        // about to write chunk i, or the terminator after the last
    | Sized(i: nat)      // length written, bytes to follow
    | Awaiting(i: nat)   // chunk written, acknowledgment awaited
    | Finished           // returned Ok
    | Failed(i: nat)     // the acknowledgment of chunk i did not come

  datatype Handler =
    | Header             // reading a length
    | Body(size: nat)    // reading that many bytes
    | Owing              // chunk taken, acknowledgment to be written
    | Done(ok: bool)

  /** `up` and `down` are the bytes on their way; `written`, `answered` and `taken` are history. */
  datatype State = State(
    client: Client, handler: Handler, up: seq<Byte>, upClosed: bool, down: seq<Byte>,
    written: seq<Byte>, answered: seq<Byte>, taken: seq<Chunk>)

  const INIT := State(Top(0), Header, [], false, [], [], [], [])

  datatype Event =
    | WriteSize | WriteData | ReadAck | MissAck | WriteEnd
    | ReadSize | MissSize | ReadBody | MissBody | WriteAck

  function Write(s: State, b: seq<Byte>): State {
    s.(up := s.up + b, written := s.written + b)
  }

  function Step(chunks: seq<Chunk>, s: State, e: Event): Option<State> {
    match e
    case WriteSize =>
      if s.client.Top? && s.client.i < |chunks| then
        Some(Write(s, ToBeBytes(|chunks[s.client.i]| % U32)).(client := Sized(s.client.i)))
      else None
    case WriteData =>
      if s.client.Sized? && s.client.i < |chunks| then
        Some(Write(s, chunks[s.client.i]).(client := Awaiting(s.client.i)))
      else None
    case ReadAck =>
      if s.client.Awaiting? && 3 <= |s.down| then Some(s.(client := Top(s.client.i + 1), down := s.down[3..])) else None
    case MissAck =>
      if s.client.Awaiting? && |s.down| < 3 && s.handler.Done? then
        Some(s.(client := Failed(s.client.i), upClosed := true))
      else None
    case WriteEnd =>
      if s.client.Top? && s.client.i == |chunks| then
        Some(Write(s, ToBeBytes(0)).(client := Finished, upClosed := true))
      else None

    case ReadSize =>
      if s.handler.Header? && 4 <= |s.up| then
        var size := FromBeBytes(s.up[..4]);
        Some(s.(handler := if size == 0 then Done(true) else Body(size), up := s.up[4..]))
      else None
    case MissSize =>
      if s.handler.Header? && |s.up| < 4 && s.upClosed then Some(s.(handler := Done(true))) else None
    case ReadBody =>
      if s.handler.Body? && s.handler.size <= |s.up| then
        var n := s.handler.size;
        Some(s.(handler := Owing, up := s.up[n..], taken := s.taken + [s.up[..n]]))
      else None
    case MissBody =>
      if s.handler.Body? && |s.up| < s.handler.size && s.upClosed then Some(s.(handler := Done(false))) else None
    case WriteAck =>
      if s.handler.Owing? then Some(s.(handler := Header, down := s.down + ACK, answered := s.answered + ACK)) else None
  }

  function Run(chunks: seq<Chunk>, es: seq<Event>): Option<State> {
    if es == [] then Some(INIT)
    else
      var p := Run(chunks, es[..|es| - 1]);
      if p.None? then None else Step(chunks, p.value, es[|es| - 1])
  }

  // ---------------------------------------------------------------------------------------------
  // Where the two sides can stand
  // ---------------------------------------------------------------------------------------------

  predicate AllShort(chunks: seq<Chunk>) {
    forall i :: 0 <= i < |chunks| ==> |chunks[i]| < U32
  }

  /** Chunks before i are through; of chunk i the handler has `taken` what follows. */
  ghost predicate Through(chunks: seq<Chunk>, i: nat, s: State, taken: nat, acked: nat) {
    && i <= |chunks| && (forall j :: 0 <= j < i ==> chunks[j] != [])
    && taken <= |chunks| && s.taken == chunks[..taken] && s.answered == Acks(acked)
  }

  ghost predicate AtTop(chunks: seq<Chunk>, s: State) {
    && s.client.Top? && Through(chunks, s.client.i, s, s.client.i, s.client.i)
    && s.handler == Header && s.up == [] && s.down == [] && !s.upClosed
    && s.written == Frames(chunks[..s.client.i])
  }

  ghost predicate AtSized(chunks: seq<Chunk>, s: State) {
    && s.client.Sized? && s.client.i < |chunks|
    && Through(chunks, s.client.i, s, s.client.i, s.client.i)
    && s.written == Frames(chunks[..s.client.i]) + ToBeBytes(|chunks[s.client.i]| % U32)
    && s.down == [] && !s.upClosed
    && match s.handler
       case Header => s.up == ToBeBytes(|chunks[s.client.i]| % U32)
       case Body(n) => n == |chunks[s.client.i]| > 0 && s.up == []
       case Done(ok) => ok && chunks[s.client.i] == [] && s.up == []
       case Owing => false
  }

  ghost predicate AtAwaiting(chunks: seq<Chunk>, s: State) {
    && s.client.Awaiting? && s.client.i < |chunks| && s.written == Frames(chunks[..s.client.i + 1]) && !s.upClosed
    && var i, c := s.client.i, chunks[s.client.i];
       match s.handler
       case Header =>
         || (s.up == FrameOf(c) && s.down == [] && Through(chunks, i, s, i, i))
         || (s.up == [] && s.down == ACK && c != [] && Through(chunks, i, s, i + 1, i + 1))
       case Body(n) => n == |c| > 0 && s.up == c && s.down == [] && Through(chunks, i, s, i, i)
       case Owing => c != [] && s.up == [] && s.down == [] && Through(chunks, i, s, i + 1, i)
       case Done(ok) => ok && c == [] && s.up == [] && s.down == [] && Through(chunks, i, s, i, i)
  }

  ghost predicate AtEnd(chunks: seq<Chunk>, s: State) {
    match s.client
    case Finished =>
      && Through(chunks, |chunks|, s, |chunks|, |chunks|) && s.written == Wire(chunks) && s.down == [] && s.upClosed
      && ((s.handler == Header && s.up == ToBeBytes(0)) || (s.handler == Done(true) && s.up == []))
    case Failed(i) =>
      && i < |chunks| && chunks[i] == [] && Through(chunks, i, s, i, i) && s.written == Frames(chunks[..i + 1])
      && s.handler == Done(true)
    case _ => false
  }

  ghost predicate Inv(chunks: seq<Chunk>, s: State) {
    AtTop(chunks, s) || AtSized(chunks, s) || AtAwaiting(chunks, s) || AtEnd(chunks, s)
  }

  /** How many events are left, at most: six for each chunk, two for the end. */
  function Measure(chunks: seq<Chunk>, s: State): int {
    var progress := match s.handler
      case Header => if s.down == [] then 0 else 3
      case Body(_) => 1
      case Owing => 2
      case Done(_) => 1;
    match s.client
    case Top(i) => 6 * (|chunks| - i) + 2
    case Sized(i) => 6 * (|chunks| - i) + 1 - progress
    case Awaiting(i) => 6 * (|chunks| - i) - progress
    case Finished => 1 - progress
    case Failed(_) => 0
  }

  ghost predicate StepOk(chunks: seq<Chunk>, s: State, t: State) {
    Inv(chunks, t) && 0 <= Measure(chunks, t) < Measure(chunks, s)
  }

  lemma HeaderRead(n: nat, rest: seq<Byte>)
    requires n < U32
    ensures (ToBeBytes(n) + rest)[..4] == ToBeBytes(n) && (ToBeBytes(n) + rest)[4..] == rest
    ensures FromBeBytes(ToBeBytes(n)) == n
  {
    LengthRoundTrip(n);
  }

  lemma SizeRead(chunks: seq<Chunk>, s: State, n: nat, rest: seq<Byte>)
    requires s.handler.Header? && n < U32 && s.up == ToBeBytes(n) + rest
    ensures Step(chunks, s, ReadSize) == Some(s.(handler := if n == 0 then Done(true) else Body(n), up := rest))
  {
    HeaderRead(n, rest);
    hide ToBeBytes, FromBeBytes;
  }

  lemma FromTop(chunks: seq<Chunk>, s: State, e: Event)
    requires AllShort(chunks) && AtTop(chunks, s) && Step(chunks, s, e).Some?
    ensures StepOk(chunks, s, Step(chunks, s, e).value)
  {
    hide ToBeBytes, FromBeBytes, Frames, Acks;
    if e.WriteEnd? {
      assert chunks[..|chunks|] == chunks;
    }
  }

  lemma SizedWrites(chunks: seq<Chunk>, s: State)
    requires AllShort(chunks) && AtSized(chunks, s)
    ensures Step(chunks, s, WriteData).Some? && StepOk(chunks, s, Step(chunks, s, WriteData).value)
  {
    var i, c := s.client.i, chunks[s.client.i];
    FramesUpTo(chunks, i);
    hide ToBeBytes, FromBeBytes, Frames, Acks;
    assert s.written + c == Frames(chunks[..i]) + FrameOf(c);
    assert s.handler == Header ==> s.up + c == FrameOf(c);
    hide FrameOf;
    assert s.handler != Header ==> s.up + c == c;
    assert AtAwaiting(chunks, Step(chunks, s, WriteData).value);
  }

  lemma FromSized(chunks: seq<Chunk>, s: State, e: Event)
    requires AllShort(chunks) && AtSized(chunks, s) && Step(chunks, s, e).Some?
    ensures StepOk(chunks, s, Step(chunks, s, e).value)
  {
    var c := chunks[s.client.i];
    hide ToBeBytes, FromBeBytes, Frames, Acks, Wire;
    if e.WriteData? {
      SizedWrites(chunks, s);
    } else {
      assert e.ReadSize? && s.up == ToBeBytes(|c|) + [];
      SizeRead(chunks, s, |c|, []);
      hide Step;
      assert AtSized(chunks, Step(chunks, s, e).value);
    }
  }

  lemma AwaitingReadsSize(chunks: seq<Chunk>, s: State)
    requires AllShort(chunks) && AtAwaiting(chunks, s) && Step(chunks, s, ReadSize).Some?
    ensures StepOk(chunks, s, Step(chunks, s, ReadSize).value)
  {
    var c, t := chunks[s.client.i], Step(chunks, s, ReadSize).value;
    assert s.up == FrameOf(c) == ToBeBytes(|c|) + c by {
      hide ToBeBytes;
      assert s.up == [] ==> Step(chunks, s, ReadSize).None?;
    }
    SizeRead(chunks, s, |c|, c);
    hide Step, ToBeBytes, FromBeBytes, Frames, FrameOf, Acks, Wire, Through;
    assert Through(chunks, s.client.i, s, s.client.i, s.client.i);
    SameHistory(chunks, s, t, s.client.i);
  }

  lemma SameHistory(chunks: seq<Chunk>, s: State, t: State, i: nat)
    requires Through(chunks, i, s, i, i) && s.taken == t.taken && s.answered == t.answered
    ensures Through(chunks, i, t, i, i)
  {
  }

  lemma AwaitingReadsBody(chunks: seq<Chunk>, s: State)
    requires AllShort(chunks) && AtAwaiting(chunks, s) && Step(chunks, s, ReadBody).Some?
    ensures StepOk(chunks, s, Step(chunks, s, ReadBody).value)
  {
    var i, c := s.client.i, chunks[s.client.i];
    hide ToBeBytes, FromBeBytes, Frames, FrameOf, Acks, Wire;
    assert s.up[..|c|] == c && s.up[|c|..] == [];
    assert chunks[..i + 1] == chunks[..i] + [c];
    assert AtAwaiting(chunks, Step(chunks, s, ReadBody).value);
  }

  lemma AwaitingAcks(chunks: seq<Chunk>, s: State, e: Event)
    requires AllShort(chunks) && AtAwaiting(chunks, s) && Step(chunks, s, e).Some?
    requires e.WriteAck? || e.ReadAck? || e.MissAck?
    ensures StepOk(chunks, s, Step(chunks, s, e).value)
  {
    var i := s.client.i;
    assert Acks(i + 1) == Acks(i) + ACK;
    hide ToBeBytes, FromBeBytes, Frames, Acks, Wire, FrameOf;
    assert s.down == ACK ==> s.down[3..] == [];
    assert s.down == [] ==> s.down + ACK == ACK;
    var t := Step(chunks, s, e).value;
    assert if e.WriteAck? then AtAwaiting(chunks, t) else if e.ReadAck? then AtTop(chunks, t) else AtEnd(chunks, t);
  }

  lemma FromAwaiting(chunks: seq<Chunk>, s: State, e: Event)
    requires AllShort(chunks) && AtAwaiting(chunks, s) && Step(chunks, s, e).Some?
    ensures StepOk(chunks, s, Step(chunks, s, e).value)
  {
    hide ToBeBytes, FromBeBytes, Frames, Acks, Wire, StepOk;
    if e.ReadSize? {
      AwaitingReadsSize(chunks, s);
    } else if e.ReadBody? {
      AwaitingReadsBody(chunks, s);
    } else {
      AwaitingAcks(chunks, s, e);
    }
  }

  lemma FromEnd(chunks: seq<Chunk>, s: State, e: Event)
    requires AllShort(chunks) && AtEnd(chunks, s) && Step(chunks, s, e).Some?
    ensures StepOk(chunks, s, Step(chunks, s, e).value)
  {
    HeaderRead(0, []);
    assert ToBeBytes(0) + [] == ToBeBytes(0);
    hide ToBeBytes, FromBeBytes, Frames, Acks, Wire;
  }

  lemma EveryStep(chunks: seq<Chunk>, s: State, e: Event)
    requires AllShort(chunks) && Inv(chunks, s) && Step(chunks, s, e).Some?
    ensures StepOk(chunks, s, Step(chunks, s, e).value)
  {
    hide Step, StepOk, AtTop, AtSized, AtAwaiting, AtEnd;
    if AtTop(chunks, s) {
      FromTop(chunks, s, e);
    } else if AtSized(chunks, s) {
      FromSized(chunks, s, e);
    } else if AtAwaiting(chunks, s) {
      FromAwaiting(chunks, s, e);
    } else {
      FromEnd(chunks, s, e);
    }
  }

  lemma Start(chunks: seq<Chunk>)
    ensures Inv(chunks, INIT) && Measure(chunks, INIT) == 6 * |chunks| + 2
  {
  }

  /** No run has more than six events for each chunk and two for the end. */
  lemma {:induction false} RunBounded(chunks: seq<Chunk>, es: seq<Event>)
    requires AllShort(chunks) && Run(chunks, es).Some?
    ensures Inv(chunks, Run(chunks, es).value)
    ensures 0 <= Measure(chunks, Run(chunks, es).value) <= 6 * |chunks| + 2 - |es|
  {
    hide Step, Inv, Measure;
    if es == [] {
      Start(chunks);
    } else {
      RunBounded(chunks, es[..|es| - 1]);
      EveryStep(chunks, Run(chunks, es[..|es| - 1]).value, es[|es| - 1]);
    }
  }

  /** At any time the handler has taken, in order, the chunks the client knows to be acknowledged, and at most
      one more. */
  lemma OneAhead(chunks: seq<Chunk>, es: seq<Event>)
    requires AllShort(chunks) && Run(chunks, es).Some?
    ensures var s := Run(chunks, es).value;
            && s.taken <= chunks
            && (s.client.Top? || s.client.Sized? || s.client.Awaiting? ==>
                  s.client.i <= |s.taken| <= s.client.i + if s.client.Awaiting? then 1 else 0)
  {
    hide Frames, FrameOf, ToBeBytes, Acks, Wire;
    RunBounded(chunks, es);
  }

  // ---------------------------------------------------------------------------------------------
  // How it ends
  // ---------------------------------------------------------------------------------------------

  /** The index of the first empty chunk; their number if there is none. */
  function FirstEmpty(chunks: seq<Chunk>): (i: nat)
    ensures i <= |chunks| && (i < |chunks| ==> chunks[i] == [])
    ensures forall j :: 0 <= j < i ==> chunks[j] != []
  {
    if chunks == [] || chunks[0] == [] then 0 else 1 + FirstEmpty(chunks[1..])
  }

  ghost predicate Over(chunks: seq<Chunk>, s: State) {
    AtEnd(chunks, s) && s.handler.Done?
  }

  /** Until then some event is possible. */
  lemma SomeEventPossible(chunks: seq<Chunk>, s: State) returns (e: Event)
    requires AllShort(chunks) && Inv(chunks, s) && !Over(chunks, s)
    ensures Step(chunks, s, e).Some?
  {
    hide ToBeBytes, FromBeBytes, Frames, Acks, Wire;
    e := match s.client
      case Top(i) => if i < |chunks| then WriteSize else WriteEnd
      case Sized(_) => WriteData
      case Awaiting(_) =>
        (match s.handler
         case Header => if s.down == [] then ReadSize else ReadAck
         case Body(_) => ReadBody
         case Owing => WriteAck
         case Done(_) => MissAck)
      case _ => ReadSize;
  }

  ghost predicate Maximal(chunks: seq<Chunk>, es: seq<Event>) {
    Run(chunks, es).Some? && forall e: Event :: Step(chunks, Run(chunks, es).value, e).None?
  }

  /**
   However writes and reads interleave: the client returns Ok if and only if no chunk is empty, and then the
   handler has taken exactly the chunks; otherwise the handler returns Ok with the chunks before the first
   empty one, and the client fails at the acknowledgment of that one.
   */
  lemma EndsExactly(chunks: seq<Chunk>, es: seq<Event>)
    requires AllShort(chunks) && Maximal(chunks, es)
    ensures var s, i := Run(chunks, es).value, FirstEmpty(chunks);
            && s.client == (if i == |chunks| then Finished else Failed(i))
            && s.handler == Done(true)
            && s.taken == chunks[..i] && s.answered == Acks(i)
            && s.written == SentFor(chunks, s.answered)
            && Receive(s.written).chunks == s.taken
  {
    RunBounded(chunks, es);
    var s, i := Run(chunks, es).value, FirstEmpty(chunks);
    if !Over(chunks, s) {
      var e := SomeEventPossible(chunks, s);
      assert false;
    }
    hide Step, Inv, Run;
    if s.client.Finished? {
      assert i == |chunks|;
      EndsFinished(chunks, s);
    } else {
      assert i == s.client.i;
      EndsFailed(chunks, s);
    }
  }

  lemma EndsFinished(chunks: seq<Chunk>, s: State)
    requires AllShort(chunks) && Over(chunks, s) && s.client.Finished?
    ensures s.taken == chunks[..|chunks|] && s.answered == Acks(|chunks|)
    ensures s.written == SentFor(chunks, s.answered) && Receive(s.written).chunks == s.taken
  {
    AcksSize(|chunks|);
    hide Receive, Frames, Acks, Wire;
    assert chunks[..|chunks|] == chunks;
    RoundTripExactly(chunks);
  }

  lemma EndsFailed(chunks: seq<Chunk>, s: State)
    requires AllShort(chunks) && Over(chunks, s) && s.client.Failed?
    ensures s.taken == chunks[..s.client.i] && s.answered == Acks(s.client.i)
    ensures s.written == SentFor(chunks, s.answered) && Receive(s.written).chunks == s.taken
  {
    StopsAtMissingAck(chunks, s.client.i);
    ReceivesUpToEmpty(chunks, s.client.i);
    hide Receive, Frames, Acks, Wire, SentFor;
  }

  lemma StopsAtMissingAck(chunks: seq<Chunk>, i: nat)
    requires i < |chunks|
    ensures SentFor(chunks, Acks(i)) == Frames(chunks[..i + 1])
  {
    AcksSize(i);
    hide Frames, Acks, Wire;
  }

  lemma ReceivesUpToEmpty(chunks: seq<Chunk>, i: nat)
    requires AllShort(chunks) && i < |chunks| && chunks[i] == [] && forall j :: 0 <= j < i ==> chunks[j] != []
    ensures Receive(Frames(chunks[..i + 1])).chunks == chunks[..i]
  {
    FramesUpTo(chunks, i);
    hide Receive, Frames, FrameOf;
    assert AllSendable(chunks[..i]);
    EmptyChunkEnds(chunks[..i], []);
    assert FrameOf([]) + [] == FrameOf([]);
  }
}
