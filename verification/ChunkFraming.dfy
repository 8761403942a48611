/**
 The chunk protocol of the raw stream example (zel_core/examples/raw_stream_example.rs): each chunk is
 sent after its length in four bytes, most significant first; a length of 0 ends the transfer; the
 receiver acknowledges every chunk.
 */
module ChunkFraming {
  type Byte = x: int | 0 <= x < 256

  type Chunk = seq<Byte>

  const U32: nat := 0x1_0000_0000

  const ACK: seq<Byte> := [65, 67, 75]

  function ToBeBytes(n: nat): (b: seq<Byte>)
    requires n < U32
    ensures |b| == 4
  {
    [n / 256 / 256 / 256, n / 256 / 256 % 256, n / 256 % 256, n % 256]
  }

  function FromBeBytes(b: seq<Byte>): (n: nat)
    requires |b| == 4
    ensures n < U32
  {
    ((b[0] as int * 256 + b[1] as int) * 256 + b[2] as int) * 256 + b[3] as int
  }

  lemma LengthRoundTrip(n: nat)
    requires n < U32
    ensures FromBeBytes(ToBeBytes(n)) == n
  {
  }

  lemma HeaderRoundTrip(b: seq<Byte>)
    requires |b| == 4
    ensures ToBeBytes(FromBeBytes(b)) == b
  {
    var n := FromBeBytes(b);
    assert n / 256 == (b[0] as int * 256 + b[1] as int) * 256 + b[2] as int;
    assert n / 256 / 256 == b[0] as int * 256 + b[1] as int;
  }

  // ---------------------------------------------------------------------------------------------
  // What is sent
  // ---------------------------------------------------------------------------------------------

  /** `chunk.len() as u32` keeps the low 32 bits. */
  function FrameOf(chunk: Chunk): seq<Byte> {
    ToBeBytes(|chunk| % U32) + chunk
  }

  function Frames(chunks: seq<Chunk>): seq<Byte> {
    if chunks == [] then [] else Frames(chunks[..|chunks| - 1]) + FrameOf(chunks[|chunks| - 1])
  }

  function Wire(chunks: seq<Chunk>): seq<Byte> {
    Frames(chunks) + ToBeBytes(0)
  }

  /** What the client writes when these bytes come back before the other stream ends: it waits for three
      bytes after each chunk and stops where they fail to come. */
  function SentFor(chunks: seq<Chunk>, recv: seq<Byte>): seq<Byte> {
    if 3 * |chunks| <= |recv| then Wire(chunks) else Frames(chunks[..|recv| / 3 + 1])
  }

  method SendFile(chunks: seq<Chunk>, recv: seq<Byte>) returns (send: seq<Byte>, ok: bool)
    ensures send == SentFor(chunks, recv)
    ensures ok <==> 3 * |chunks| <= |recv|
  {
    send := [];
    var pos := 0;
    for i := 0 to |chunks|
      invariant send == Frames(chunks[..i]) && pos == 3 * i <= |recv|
    {
      var size := |chunks[i]| % U32;
      send := send + ToBeBytes(size);
      send := send + chunks[i];
      assert chunks[..i + 1][..i] == chunks[..i];
      assert send == Frames(chunks[..i]) + FrameOf(chunks[i]);
      if |recv| - pos < 3 {
        return send, false;
      }
      pos := pos + 3;
    }
    assert chunks[..|chunks|] == chunks;
    send := send + ToBeBytes(0);
    ok := true;
  }

  // ---------------------------------------------------------------------------------------------
  // What is received
  // ---------------------------------------------------------------------------------------------

  datatype End =
    | Terminator   // a length of 0
    | StreamEnd    // no further length: taken for the end as well
    | Broken       // the stream ended inside a chunk: an error

  datatype Transfer = Transfer(chunks: seq<Chunk>, end: End)

  function Receive(b: seq<Byte>): Transfer
    decreases |b|
  {
    if |b| < 4 then Transfer([], StreamEnd)
    else
      var size := FromBeBytes(b[..4]);
      if size == 0 then Transfer([], Terminator)
      else if |b| - 4 < size then Transfer([], Broken)
      else
        var rest := Receive(b[4 + size..]);
        Transfer([b[4..4 + size]] + rest.chunks, rest.end)
  }

  function TotalBytes(chunks: seq<Chunk>): nat {
    if chunks == [] then 0 else |chunks[0]| + TotalBytes(chunks[1..])
  }

  function Acks(n: nat): seq<Byte> {
    if n == 0 then [] else Acks(n - 1) + ACK
  }

  lemma TotalOfNone()
    ensures TotalBytes([]) == 0
  {
  }

  lemma {:induction false} TotalOfExtended(chunks: seq<Chunk>, chunk: Chunk)
    ensures TotalBytes(chunks + [chunk]) == TotalBytes(chunks) + |chunk|
  {
    if chunks == [] {
      assert chunks + [chunk] == [chunk] && [chunk][1..] == [];
    } else {
      assert (chunks + [chunk])[1..] == chunks[1..] + [chunk];
      TotalOfExtended(chunks[1..], chunk);
    }
  }

  /** One turn of the receiver's loop, at position pos of the stream. */
  lemma ReceiveAt(recv: seq<Byte>, pos: nat)
    requires pos <= |recv|
    ensures |recv| - pos < 4 ==> Receive(recv[pos..]) == Transfer([], StreamEnd)
    ensures 4 <= |recv| - pos ==>
              var size := FromBeBytes(recv[pos..pos + 4]);
              var rest := pos + 4;
              && (size == 0 ==> Receive(recv[pos..]) == Transfer([], Terminator))
              && (0 < size && |recv| - rest < size ==> Receive(recv[pos..]) == Transfer([], Broken))
              && (0 < size <= |recv| - rest ==>
                    var later := Receive(recv[rest + size..]);
                    Receive(recv[pos..]) == Transfer([recv[rest..rest + size]] + later.chunks, later.end))
  {
    hide FromBeBytes;
    if 4 <= |recv| - pos {
      assert recv[pos..][..4] == recv[pos..pos + 4];
      var size := FromBeBytes(recv[pos..pos + 4]);
      if 0 < size <= |recv| - pos - 4 {
        assert recv[pos..][4..4 + size] == recv[pos + 4..pos + 4 + size];
        assert recv[pos..][4 + size..] == recv[pos + 4 + size..];
      }
    }
  }

  /** The handler: what it takes from the stream, how many bytes of chunks it counts, what it answers and
      whether it returns Ok.  `room` is the number of acknowledgments the other stream takes before a write
      fails, `finishes` whether it can be closed. */
  method TransferFile(recv: seq<Byte>, room: nat, finishes: bool)
    returns (totalBytes: nat, send: seq<Byte>, ok: bool, ghost taken: seq<Chunk>)
    ensures taken == if |Receive(recv).chunks| <= room then Receive(recv).chunks else Receive(recv).chunks[..room + 1]
    ensures totalBytes == TotalBytes(taken) <= |recv|
    ensures send == Acks(if |taken| <= room then |taken| else room)
    ensures ok <==> !Receive(recv).end.Broken? && |Receive(recv).chunks| <= room && finishes
  {
    hide FromBeBytes, Receive, TotalBytes;
    TotalOfNone();
    totalBytes, send, taken := 0, [], [];
    var pos, left := 0, room;
    while true
      invariant pos <= |recv| && totalBytes == TotalBytes(taken) <= pos
      invariant send == Acks(|taken|) && |taken| + left == room
      invariant Receive(recv) == Transfer(taken + Receive(recv[pos..]).chunks, Receive(recv[pos..]).end)
      decreases |recv| - pos
    {
      ReceiveAt(recv, pos);
      if |recv| - pos < 4 {
        return totalBytes, send, finishes, taken;
      }
      var size := FromBeBytes(recv[pos..pos + 4]);
      pos := pos + 4;
      if size == 0 {
        return totalBytes, send, finishes, taken;
      }
      if |recv| - pos < size {
        return totalBytes, send, false, taken;
      }
      var chunk := recv[pos..pos + size];
      TotalOfExtended(taken, chunk);
      pos := pos + size;
      totalBytes := totalBytes + size;
      ghost var later := Receive(recv[pos..]).chunks;
      assert taken + ([chunk] + later) == (taken + [chunk]) + later;
      taken := taken + [chunk];
      if left == 0 {
        return totalBytes, send, false, taken;
      }
      left := left - 1;
      send := send + ACK;
    }
  }

  // ---------------------------------------------------------------------------------------------
  // Sender and receiver together
  // ---------------------------------------------------------------------------------------------

  /** Chunks whose length fits the header and is not taken for the end. */
  predicate Sendable(chunk: Chunk) {
    0 < |chunk| < U32
  }

  predicate AllSendable(chunks: seq<Chunk>) {
    forall i :: 0 <= i < |chunks| ==> Sendable(chunks[i])
  }

  lemma OneFrame(chunk: Chunk, rest: seq<Byte>)
    requires Sendable(chunk)
    ensures Receive(FrameOf(chunk) + rest) == Transfer([chunk] + Receive(rest).chunks, Receive(rest).end)
  {
    var b := FrameOf(chunk) + rest;
    LengthRoundTrip(|chunk|);
    assert b[..4] == ToBeBytes(|chunk|);
    assert b[4..4 + |chunk|] == chunk;
    assert b[4 + |chunk|..] == rest;
  }

  /** Whatever follows the frames of sendable chunks, the receiver gets those chunks and then makes of
      the rest what it would make of it alone. */
  lemma {:induction false} FramesThen(chunks: seq<Chunk>, rest: seq<Byte>)
    requires AllSendable(chunks)
    ensures Receive(Frames(chunks) + rest) == Transfer(chunks + Receive(rest).chunks, Receive(rest).end)
  {
    hide Receive, FrameOf;
    if chunks == [] {
      assert Frames(chunks) + rest == rest;
    } else {
      var init, last := chunks[..|chunks| - 1], chunks[|chunks| - 1];
      assert Frames(chunks) + rest == Frames(init) + (FrameOf(last) + rest);
      FramesThen(init, FrameOf(last) + rest);
      OneFrame(last, rest);
    }
  }

  lemma TerminatorAlone()
    ensures Receive(ToBeBytes(0)) == Transfer([], Terminator)
  {
    LengthRoundTrip(0);
    assert ToBeBytes(0)[..4] == ToBeBytes(0);
  }

  lemma {:induction false} ReceivedAreSendable(b: seq<Byte>)
    ensures AllSendable(Receive(b).chunks)
    decreases |b|
  {
    if 4 <= |b| && 0 < FromBeBytes(b[..4]) <= |b| - 4 {
      ReceivedAreSendable(b[4 + FromBeBytes(b[..4])..]);
    }
  }

  /** The receiver recovers exactly the chunks sent, ending at the terminator, if and only if every chunk
      is non-empty and shorter than 2^32. */
  lemma RoundTripExactly(chunks: seq<Chunk>)
    ensures Receive(Wire(chunks)) == Transfer(chunks, Terminator) <==> AllSendable(chunks)
  {
    if AllSendable(chunks) {
      FramesThen(chunks, ToBeBytes(0));
      TerminatorAlone();
    }
    ReceivedAreSendable(Wire(chunks));
  }

  /** The receiver's view of an empty chunk: it takes it for the end, and whatever follows is not looked at.
      The client, which waits for an acknowledgment, does notice: see ChunkLockstep. */
  lemma EmptyChunkEnds(before: seq<Chunk>, rest: seq<Byte>)
    requires AllSendable(before)
    ensures Receive(Frames(before) + (FrameOf([]) + rest)) == Transfer(before, Terminator)
  {
    var tail := FrameOf([]) + rest;
    LengthRoundTrip(0);
    assert tail[..4] == ToBeBytes(0);
    FramesThen(before, tail);
  }

  /** A stream cut anywhere - not only between frames - never yields anything but a prefix of the chunks
      the whole stream yields, whoever sent it. */
  lemma {:induction false} CutYieldsPrefix(b: seq<Byte>, n: nat)
    requires n <= |b|
    ensures Receive(b[..n]).chunks <= Receive(b).chunks
    decreases |b|
  {
    hide FromBeBytes;
    var cut := b[..n];
    if 4 <= n {
      assert cut[..4] == b[..4];
      var size := FromBeBytes(b[..4]);
      if 0 < size <= n - 4 {
        assert cut[4..4 + size] == b[4..4 + size];
        assert cut[4 + size..] == b[4 + size..][..n - 4 - size];
        CutYieldsPrefix(b[4 + size..], n - 4 - size);
      }
    }
  }

  /** A stream cut between two frames or inside a header is taken for a complete, shorter transfer; only a
      cut inside a chunk is noticed. */
  lemma CutAfterFrames(before: seq<Chunk>, next: Chunk, n: nat)
    requires AllSendable(before) && Sendable(next) && n < |FrameOf(next)|
    ensures Receive(Frames(before) + FrameOf(next)[..n]) == Transfer(before, if n < 4 then StreamEnd else Broken)
  {
    PartAlone(next, n);
    hide Receive, FrameOf;
    FramesThen(before, FrameOf(next)[..n]);
  }

  lemma PartAlone(next: Chunk, n: nat)
    requires Sendable(next) && n < |FrameOf(next)|
    ensures Receive(FrameOf(next)[..n]) == Transfer([], if n < 4 then StreamEnd else Broken)
  {
    var part := FrameOf(next)[..n];
    LengthRoundTrip(|next|);
    if 4 <= n {
      assert part[..4] == ToBeBytes(|next|);
    }
  }

  /** How many frames lie whole within the first n bytes. */
  function WholeFrames(chunks: seq<Chunk>, n: nat): (k: nat)
    ensures k <= |chunks| && |Frames(chunks[..k])| <= n
    ensures k < |chunks| ==> n < |Frames(chunks[..k + 1])|
  {
    assert chunks[..|chunks|] == chunks;
    if chunks == [] || |Frames(chunks)| <= n then |chunks|
    else
      var init := chunks[..|chunks| - 1];
      var k := WholeFrames(init, n);
      assert init[..k] == chunks[..k] && (k < |init| ==> init[..k + 1] == chunks[..k + 1]);
      assert k == |init| ==> chunks[..k + 1] == chunks;
      k
  }

  lemma {:induction false} FramesSplit(chunks: seq<Chunk>, k: nat)
    requires k <= |chunks|
    ensures Frames(chunks) == Frames(chunks[..k]) + Frames(chunks[k..])
  {
    hide FrameOf;
    if k < |chunks| {
      var init := chunks[..|chunks| - 1];
      FramesSplit(init, k);
      assert init[..k] == chunks[..k] && init[k..] == chunks[k..][..|chunks| - k - 1];
    } else {
      assert chunks[..k] == chunks;
    }
  }

  lemma FramesUpTo(chunks: seq<Chunk>, k: nat)
    requires k < |chunks|
    ensures Frames(chunks[..k + 1]) == Frames(chunks[..k]) + FrameOf(chunks[k])
  {
    assert chunks[..k + 1][..k] == chunks[..k];
  }

  /** The cut inside frame k, m bytes after its beginning. */
  lemma CutInFrame(chunks: seq<Chunk>, k: nat, m: nat)
    requires k < |chunks| && m <= |FrameOf(chunks[k])|
    ensures |Frames(chunks[..k])| + m <= |Wire(chunks)|
    ensures Wire(chunks)[..|Frames(chunks[..k])| + m] == Frames(chunks[..k]) + FrameOf(chunks[k])[..m]
  {
    FramesSplit(chunks, k + 1);
    FramesUpTo(chunks, k);
    hide Frames, FrameOf;
    CutJoined(Frames(chunks[..k]), FrameOf(chunks[k]), Frames(chunks[k + 1..]) + ToBeBytes(0), m);
    assert Wire(chunks) == Frames(chunks[..k]) + FrameOf(chunks[k]) + (Frames(chunks[k + 1..]) + ToBeBytes(0));
  }

  lemma CutJoined(a: seq<Byte>, b: seq<Byte>, c: seq<Byte>, m: nat)
    requires m <= |b|
    ensures (a + b + c)[..|a| + m] == a + b[..m]
  {
  }

  lemma CutWithin(chunks: seq<Chunk>, k: nat, m: nat)
    requires AllSendable(chunks) && k < |chunks| && m < |FrameOf(chunks[k])|
    ensures |Frames(chunks[..k])| + m < |Wire(chunks)|
    ensures Receive(Wire(chunks)[..|Frames(chunks[..k])| + m]) ==
            Transfer(chunks[..k], if m < 4 then StreamEnd else Broken)
  {
    hide Receive, FrameOf, Frames, ToBeBytes, Wire;
    CutInFrame(chunks, k, m);
    CutInFrame(chunks, k, |FrameOf(chunks[k])|);
    CutAfterFrames(chunks[..k], chunks[k], m);
  }

  lemma CutInTerminator(chunks: seq<Chunk>, m: nat)
    requires AllSendable(chunks) && m <= 4
    ensures |Wire(chunks)| == |Frames(chunks)| + 4
    ensures Receive(Wire(chunks)[..|Frames(chunks)| + m]) ==
            Transfer(chunks, if m == 4 then Terminator else StreamEnd)
  {
    hide Receive, FrameOf, Frames, ToBeBytes;
    assert Wire(chunks)[..|Frames(chunks)| + m] == Frames(chunks) + ToBeBytes(0)[..m];
    FramesThen(chunks, ToBeBytes(0)[..m]);
    CutTerminator(m);
  }

  /** A transfer cut at any position: the chunks whose frames are whole arrive; the receiver sees the
      terminator if nothing is missing, and an error exactly if the cut is inside the bytes of a chunk. */
  lemma CutAnywhere(chunks: seq<Chunk>, n: nat)
    requires AllSendable(chunks) && n <= |Wire(chunks)|
    ensures var k := WholeFrames(chunks, n);
            Receive(Wire(chunks)[..n]) == Transfer(chunks[..k],
              if n == |Wire(chunks)| then Terminator
              else if k < |chunks| && 4 <= n - |Frames(chunks[..k])| then Broken
              else StreamEnd)
  {
    hide Receive, FrameOf, Frames, ToBeBytes, Wire, WholeFrames;
    var k := WholeFrames(chunks, n);
    var m := n - |Frames(chunks[..k])|;
    if k < |chunks| {
      FramesUpTo(chunks, k);
      CutWithin(chunks, k, m);
    } else {
      assert chunks[..k] == chunks;
      CutInTerminator(chunks, 4);
      CutInTerminator(chunks, m);
    }
  }

  lemma CutTerminator(n: nat)
    requires n <= 4
    ensures Receive(ToBeBytes(0)[..n]) == Transfer([], if n == 4 then Terminator else StreamEnd)
  {
    if n == 4 {
      assert ToBeBytes(0)[..n] == ToBeBytes(0);
      TerminatorAlone();
    }
  }

  lemma AcksSize(n: nat)
    ensures |Acks(n)| == 3 * n
  {
  }
}
