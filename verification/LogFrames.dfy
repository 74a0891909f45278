/** The container engine's multiplexed log stream: 8-byte headers and payloads. */
module LogFrames {
  import opened Wrappers

  type Byte = n: int | 0 <= n < 256

  type Bytes = seq<Byte>

  const LIMIT: nat := 0x1_0000_0000

  /** Four header bytes that nobody reads, then the payload. */
  datatype Frame = Frame(stream: Bytes, payload: Bytes)

  predicate WellFormed(f: Frame) {
    |f.stream| == 4 && |f.payload| < LIMIT
  }

  predicate AllWellFormed(fs: seq<Frame>) {
    forall f :: f in fs ==> WellFormed(f)
  }

  function BigEndian(b: Bytes): int
    requires |b| == 4
  {
    var b0: int, b1: int, b2: int, b3: int := b[0], b[1], b[2], b[3];
    ((b0 * 256 + b1) * 256 + b2) * 256 + b3
  }

  function BigEndianBytes(n: nat): Bytes
    requires n < LIMIT
  {
    [n / 16777216, n / 65536 % 256, n / 256 % 256, n % 256]
  }

  lemma BytesOfNumber(n: nat)
    requires n < LIMIT
    ensures BigEndian(BigEndianBytes(n)) == n
  {
    assert n / 65536 == n / 256 / 256 && n / 16777216 == n / 65536 / 256;
  }

  lemma NumberOfBytes(b: Bytes)
    requires |b| == 4
    ensures 0 <= BigEndian(b) < LIMIT && BigEndianBytes(BigEndian(b)) == b
  {
    var b0: int, b1: int, b2: int, b3: int := b[0], b[1], b[2], b[3];
    var n := BigEndian(b);
    var n1 := (b0 * 256 + b1) * 256 + b2;
    assert n / 256 == n1 && n % 256 == b3;
    assert n / 65536 == n1 / 256 == b0 * 256 + b1 && n / 16777216 == b0;
    assert n1 % 256 == b2 && (b0 * 256 + b1) % 256 == b1;
  }

  // ---- multiplexing -------------------------------------------------------------

  function Encode(f: Frame): Bytes
    requires WellFormed(f)
  {
    f.stream + BigEndianBytes(|f.payload|) + f.payload
  }

  function Mux(fs: seq<Frame>): Bytes
    requires AllWellFormed(fs)
  {
    if fs == [] then [] else Encode(fs[0]) + Mux(fs[1..])
  }

  function Payloads(fs: seq<Frame>): Bytes {
    if fs == [] then [] else fs[0].payload + Payloads(fs[1..])
  }

  // ---- demultiplexing -----------------------------------------------------------

  /** The frame at the head of a stream and what follows it. */
  function Head(logs: Bytes): Option<(Frame, Bytes)> {
    if |logs| < 8 || BigEndian(logs[4..8]) > |logs| - 8 then None
    else
      NumberOfBytes(logs[4..8]);
      var size := BigEndian(logs[4..8]);
      Some((Frame(logs[..4], logs[8..8 + size]), logs[8 + size..]))
  }

  function Frames(logs: Bytes): Option<seq<Frame>>
    decreases |logs|
  {
    if logs == [] then Some([])
    else
      var head :- Head(logs);
      var rest :- Frames(head.1);
      Some([head.0] + rest)
  }

  lemma HeadInverts(logs: Bytes)
    ensures Head(logs).Some? ==>
              WellFormed(Head(logs).value.0) && Encode(Head(logs).value.0) + Head(logs).value.1 == logs
  {
    if Head(logs).Some? {
      NumberOfBytes(logs[4..8]);
    }
  }

  /** The size stands in the second half of the header, its first byte the highest; the payload
      is what follows the header. */
  lemma HeaderDecides(logs: Bytes)
    requires Frames(logs).Some? && logs != []
    ensures |logs| >= 8 && Frames(logs).value != []
    ensures var b4: int, b5: int, b6: int, b7: int := logs[4], logs[5], logs[6], logs[7];
            var size := b4 * 16777216 + b5 * 65536 + b6 * 256 + b7;
            8 + size <= |logs| && Frames(logs).value[0].payload == logs[8..8 + size]
  {
    assert logs[4..8][0] == logs[4] && logs[4..8][1] == logs[5] && logs[4..8][2] == logs[6] && logs[4..8][3] == logs[7];
  }

  lemma HeadOfEncoded(f: Frame, rest: Bytes)
    requires WellFormed(f)
    ensures Head(Encode(f) + rest) == Some((f, rest))
  {
    BytesOfNumber(|f.payload|);
    var logs := Encode(f) + rest;
    assert logs[4..8] == BigEndianBytes(|f.payload|) && logs[..4] == f.stream;
    assert logs[8..8 + |f.payload|] == f.payload && logs[8 + |f.payload|..] == rest;
  }

  lemma {:induction false} FramesInvert(logs: Bytes)
    ensures Frames(logs).Some? ==> AllWellFormed(Frames(logs).value) && Mux(Frames(logs).value) == logs
    decreases |logs|
  {
    if logs != [] && Frames(logs).Some? {
      HeadInverts(logs);
      FramesInvert(Head(logs).value.1);
      assert Frames(logs).value[1..] == Frames(Head(logs).value.1).value;
    }
  }

  /** Demultiplexing undoes multiplexing. */
  lemma {:induction false} MuxRoundTrip(fs: seq<Frame>)
    requires AllWellFormed(fs)
    ensures Frames(Mux(fs)) == Some(fs)
  {
    if fs != [] {
      HeadOfEncoded(fs[0], Mux(fs[1..]));
      MuxRoundTrip(fs[1..]);
      assert [fs[0]] + fs[1..] == fs;
      assert Mux(fs) != [] by { assert |Encode(fs[0])| >= 8; }
    }
  }

  /** Exactly the concatenations of frames are accepted, and each in one way only. */
  lemma AcceptsExactlyMuxed(logs: Bytes, fs: seq<Frame>)
    ensures Frames(logs) == Some(fs) <==> AllWellFormed(fs) && logs == Mux(fs)
  {
    FramesInvert(logs);
    if AllWellFormed(fs) && logs == Mux(fs) {
      MuxRoundTrip(fs);
    }
  }

  /** A stream cut inside a frame is refused. */
  lemma {:induction false} CutFrameRefused(fs: seq<Frame>, last: Frame, k: nat)
    requires AllWellFormed(fs) && WellFormed(last) && 0 < k < |Encode(last)|
    ensures Frames(Mux(fs) + Encode(last)[..k]).None?
    decreases |fs|
  {
    var tail := Encode(last)[..k];
    if fs == [] {
      assert Mux(fs) + tail == tail;
      if k >= 8 {
        BytesOfNumber(|last.payload|);
        assert Encode(last)[4..8] == BigEndianBytes(|last.payload|);
        assert tail[4..8] == BigEndianBytes(|last.payload|);
      }
    } else {
      assert Mux(fs) + tail == Encode(fs[0]) + (Mux(fs[1..]) + tail);
      HeadOfEncoded(fs[0], Mux(fs[1..]) + tail);
      CutFrameRefused(fs[1..], last, k);
      assert Mux(fs) + tail != [];
    }
  }

  lemma {:induction false} PayloadsSnoc(fs: seq<Frame>, f: Frame)
    ensures Payloads(fs + [f]) == Payloads(fs) + f.payload
  {
    if fs == [] {
      assert Payloads([f]) == f.payload + Payloads([]);
    } else {
      PayloadsSnoc(fs[1..], f);
      assert (fs + [f])[1..] == fs[1..] + [f];
    }
  }

  lemma FramesNext(done: seq<Frame>, logs: Bytes)
    requires logs != [] && Head(logs).Some?
    ensures Frames(logs).Some? <==> Frames(Head(logs).value.1).Some?
    ensures Frames(logs).Some? ==>
              done + Frames(logs).value == done + [Head(logs).value.0] + Frames(Head(logs).value.1).value
  {
  }

  /** The loop of the broker: `None` stands for its value error. */
  method Demultiplex(input: Bytes) returns (chunks: Option<Bytes>)
    ensures chunks == if Frames(input).Some? then Some(Payloads(Frames(input).value)) else None
  {
    var logs, out := input, [];
    ghost var done: seq<Frame> := [];
    while logs != []
      invariant Frames(input).Some? <==> Frames(logs).Some?
      invariant Frames(logs).Some? ==> Frames(input).value == done + Frames(logs).value
      invariant out == Payloads(done)
      decreases |logs|
    {
      if |logs| < 8 {
        return None;
      }
      NumberOfBytes(logs[4..8]);
      var size := BigEndian(logs[4..8]);
      if size > |logs| - 8 {
        return None;
      }
      out := out + logs[8..8 + size];
      PayloadsSnoc(done, Head(logs).value.0);
      FramesNext(done, logs);
      done := done + [Head(logs).value.0];
      logs := logs[8 + size..];
    }
    assert done + [] == done;
    chunks := Some(out);
  }
}
