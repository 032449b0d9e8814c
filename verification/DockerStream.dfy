/**
 * The Docker stream demultiplexer: an incremental parser over arbitrary chunks with a bounded buffer
 * per stream, proved equal to a one-shot parser of everything received.
 */
module DockerStream {
  import opened Common

  type Byte = b: int | 0 <= b < 256

  const HEADER_SIZE := 8
  const STDOUT: Byte := 1
  const STDERR: Byte := 2

  // ---- Bounded buffers ----

  /** What is kept of a stream, how many bytes that is, and whether more came. */
  datatype Sink = Sink(kept: seq<Byte>, bytes: nat, truncated: bool)

  /** The buffer that a whole stream leaves behind. */
  function SinkOf(all: seq<Byte>, max: nat): Sink {
    if |all| > max then Sink(all[..max], max, true) else Sink(all, |all|, false)
  }

  /** One buffer of the source: an array of chunks and two counters. */
  class BoundedBuffer {
    var chunks: seq<seq<Byte>>
    var bytes: nat
    var truncated: bool
    const max: nat
    ghost var received: seq<Byte>

    ghost predicate Valid()
      reads this
    {
      Sink(Concat(chunks), bytes, truncated) == SinkOf(received, max)
    }

    constructor (max: nat)
      ensures Valid() && received == [] && this.max == max
    {
      this.max := max;
      chunks, bytes, truncated, received := [], 0, false, [];
    }

    method Take(payload: seq<Byte>)
      requires Valid()
      modifies this
      ensures Valid() && received == old(received) + payload
    {
      ghost var before := Concat(chunks);
      received := received + payload;
      if truncated {
        assert received[..max] == old(received)[..max];
        return;
      }
      if bytes + |payload| > max {
        var remaining := max - bytes;
        if remaining > 0 {
          ConcatAppend(chunks, [payload[..remaining]]);
          chunks := chunks + [payload[..remaining]];
        }
        assert received[..max] == before + payload[..remaining];
        truncated := true;
        bytes := max;
        return;
      }
      ConcatAppend(chunks, [payload]);
      chunks := chunks + [payload];
      bytes := bytes + |payload|;
    }
  }

  // ---- Frames ----

  /** `filler` are the three header bytes nobody reads. */
  datatype Frame = Frame(kind: Byte, filler: (Byte, Byte, Byte), payload: seq<Byte>)

  function Word(b0: int, b1: int, b2: int, b3: int): int {
    ((b0 * 0x100 + b1) * 0x100 + b2) * 0x100 + b3
  }

  function ReadUInt32BE(b: seq<Byte>, at: nat): (n: nat)
    requires at + 4 <= |b|
  {
    Word(b[at], b[at + 1], b[at + 2], b[at + 3])
  }

  function UInt32BE(n: nat): (b: seq<Byte>)
    requires n < 0x1_0000_0000
  {
    var high := n / 0x100;
    [high / 0x100 / 0x100, high / 0x100 % 0x100, high % 0x100, n % 0x100]
  }

  predicate Complete(b: seq<Byte>) {
    |b| >= HEADER_SIZE && |b| >= HEADER_SIZE + ReadUInt32BE(b, 4)
  }

  function First(b: seq<Byte>): Frame
    requires Complete(b)
  {
    Frame(b[0], (b[1], b[2], b[3]), b[HEADER_SIZE..HEADER_SIZE + ReadUInt32BE(b, 4)])
  }

  function AfterFirst(b: seq<Byte>): seq<Byte>
    requires Complete(b)
  {
    b[HEADER_SIZE + ReadUInt32BE(b, 4)..]
  }

  /** The one-shot parser: all complete frames in order. */
  function Parse(b: seq<Byte>): seq<Frame>
    decreases |b|
  {
    if Complete(b) then [First(b)] + Parse(AfterFirst(b)) else []
  }

  /** What follows the last complete frame. */
  function Rest(b: seq<Byte>): seq<Byte>
    decreases |b|
  {
    if Complete(b) then Rest(AfterFirst(b)) else b
  }

  /** The payloads of one kind, one after the other. */
  function PayloadOf(frames: seq<Frame>, kind: Byte): seq<Byte> {
    if frames == [] then []
    else (if frames[0].kind == kind then frames[0].payload else []) + PayloadOf(frames[1..], kind)
  }

  lemma {:induction false} PayloadAppend(a: seq<Frame>, b: seq<Frame>, kind: Byte)
    ensures PayloadOf(a + b, kind) == PayloadOf(a, kind) + PayloadOf(b, kind)
  {
    if a == [] {
      assert a + b == b;
    } else {
      var ab := a + b;
      assert ab[0] == a[0] && ab[1..] == a[1..] + b;
      PayloadAppend(a[1..], b, kind);
      var head := if a[0].kind == kind then a[0].payload else [];
      assert PayloadOf(ab, kind) == head + PayloadOf(a[1..] + b, kind);
    }
  }

  /** Parsing can stop anywhere and go on from the rest once more bytes have come. */
  lemma {:induction false} ParsingGoesOn(b: seq<Byte>, more: seq<Byte>)
    ensures Parse(b + more) == Parse(b) + Parse(Rest(b) + more)
    ensures Rest(b + more) == Rest(Rest(b) + more)
    decreases |b|
  {
    if Complete(b) {
      assert Complete(b + more) && First(b + more) == First(b);
      assert AfterFirst(b + more) == AfterFirst(b) + more;
      ParsingGoesOn(AfterFirst(b), more);
    }
  }

  /** Moving the first frame of `b` over to the frames already taken. */
  lemma NextFrame(frames: seq<Frame>, b: seq<Byte>)
    requires Complete(b)
    ensures frames + Parse(b) == frames + [First(b)] + Parse(AfterFirst(b)) && Rest(b) == Rest(AfterFirst(b))
  {
  }

  lemma OneMorePayload(frames: seq<Frame>, f: Frame, kind: Byte)
    ensures PayloadOf(frames + [f], kind) == PayloadOf(frames, kind) + (if f.kind == kind then f.payload else [])
  {
    PayloadAppend(frames, [f], kind);
    var none: seq<Frame> := [];
    assert [f][1..] == none;
    assert PayloadOf(none, kind) == [];
  }

  // ---- The demultiplexer ----

  class Demultiplexer {
    var pending: seq<Byte>
    const stdout: BoundedBuffer
    const stderr: BoundedBuffer
    ghost var received: seq<Byte>

    /** Everything received so far has been treated as the one-shot parser would treat it. */
    ghost predicate Valid()
      reads this, stdout, stderr
    {
      && stdout != stderr
      && stdout.Valid() && stderr.Valid()
      && pending == Rest(received)
      && stdout.received == PayloadOf(Parse(received), STDOUT)
      && stderr.received == PayloadOf(Parse(received), STDERR)
    }

    constructor (maxStdoutBytes: nat, maxStderrBytes: nat)
      ensures Valid() && fresh(stdout) && fresh(stderr) && received == []
      ensures stdout.max == maxStdoutBytes && stderr.max == maxStderrBytes
    {
      pending, received := [], [];
      stdout := new BoundedBuffer(maxStdoutBytes);
      stderr := new BoundedBuffer(maxStderrBytes);
    }

    method OnData(chunk: seq<Byte>)
      requires Valid()
      modifies this, stdout, stderr
      ensures Valid() && received == old(received) + chunk
    {
      ParsingGoesOn(received, chunk);
      ghost var frames := Parse(received);
      received := received + chunk;
      pending := pending + chunk;
      while |pending| >= HEADER_SIZE
        invariant stdout.Valid() && stderr.Valid() && received == old(received) + chunk
        invariant stdout.received == PayloadOf(frames, STDOUT) && stderr.received == PayloadOf(frames, STDERR)
        invariant Parse(received) == frames + Parse(pending) && Rest(received) == Rest(pending)
        decreases |pending|
      {
        var frameType := pending[0];
        var frameEnd := HEADER_SIZE + ReadUInt32BE(pending, 4);
        if |pending| < frameEnd { break; }
        var payload := pending[HEADER_SIZE..frameEnd];
        NextFrame(frames, pending);
        OneMorePayload(frames, First(pending), STDOUT);
        OneMorePayload(frames, First(pending), STDERR);
        frames := frames + [First(pending)];
        pending := pending[frameEnd..];
        if frameType == STDOUT {
          stdout.Take(payload);
          continue;
        }
        if frameType == STDERR {
          stderr.Take(payload);
        }
      }
      assert !Complete(pending);
      assert frames + Parse(pending) == frames;
    }
  }

  datatype Output = Output(stdout: Sink, stderr: Sink)

  /** The result of a whole stream, by the one-shot parser. */
  function OutputOf(all: seq<Byte>, maxStdoutBytes: nat, maxStderrBytes: nat): Output {
    Output(SinkOf(PayloadOf(Parse(all), STDOUT), maxStdoutBytes), SinkOf(PayloadOf(Parse(all), STDERR), maxStderrBytes))
  }

  /** The chunks as they arrive; the result does not depend on where they split. */
  method ReadDemuxedDockerStream(stream: seq<seq<Byte>>, maxStdoutBytes: nat, maxStderrBytes: nat) returns (r: Output)
    ensures r == OutputOf(Concat(stream), maxStdoutBytes, maxStderrBytes)
  {
    var d := new Demultiplexer(maxStdoutBytes, maxStderrBytes);
    for i := 0 to |stream|
      invariant d.Valid() && d.received == Concat(stream[..i])
      invariant fresh(d) && fresh(d.stdout) && fresh(d.stderr)
    {
      d.OnData(stream[i]);
      ConcatAppend(stream[..i], [stream[i]]);
      assert stream[..i + 1] == stream[..i] + [stream[i]];
    }
    assert stream[..|stream|] == stream;
    var out, err := d.stdout, d.stderr;
    r := Output(Sink(Concat(out.chunks), out.bytes, out.truncated), Sink(Concat(err.chunks), err.bytes, err.truncated));
  }

  method ReadBoundedUtf8Stream(stream: seq<seq<Byte>>, maxBytes: nat) returns (r: Sink)
    ensures r == SinkOf(Concat(stream), maxBytes)
  {
    var b := new BoundedBuffer(maxBytes);
    for i := 0 to |stream|
      invariant b.Valid() && b.received == Concat(stream[..i]) && fresh(b)
    {
      b.Take(stream[i]);
      ConcatAppend(stream[..i], [stream[i]]);
      assert stream[..i + 1] == stream[..i] + [stream[i]];
    }
    assert stream[..|stream|] == stream;
    r := Sink(Concat(b.chunks), b.bytes, b.truncated);
  }

  // ---- Encoded frames ----

  predicate Encodable(f: Frame) {
    |f.payload| < 0x1_0000_0000
  }

  function EncodeFrame(f: Frame): seq<Byte>
    requires Encodable(f)
  {
    [f.kind, f.filler.0, f.filler.1, f.filler.2] + UInt32BE(|f.payload|) + f.payload
  }

  function Encode(frames: seq<Frame>): seq<Byte>
    requires forall f :: f in frames ==> Encodable(f)
  {
    if frames == [] then [] else EncodeFrame(frames[0]) + Encode(frames[1..])
  }

  lemma EncodedFrameParses(f: Frame, more: seq<Byte>)
    requires Encodable(f)
    ensures Parse(EncodeFrame(f) + more) == [f] + Parse(more) && Rest(EncodeFrame(f) + more) == Rest(more)
  {
  }

  /** Parsing undoes encoding, and an incomplete trailing frame adds nothing. */
  lemma {:induction false} ParseEncoded(frames: seq<Frame>, tail: seq<Byte>)
    requires forall f :: f in frames ==> Encodable(f)
    requires !Complete(tail)
    ensures Parse(Encode(frames) + tail) == frames && Rest(Encode(frames) + tail) == tail
  {
    if frames == [] {
      assert Encode(frames) + tail == tail;
    } else {
      var more := Encode(frames[1..]) + tail;
      assert Encode(frames) + tail == EncodeFrame(frames[0]) + more;
      EncodedFrameParses(frames[0], more);
      ParseEncoded(frames[1..], tail);
      assert frames == [frames[0]] + frames[1..];
    }
  }

  /** Encoding undoes parsing: no byte is lost, moved or made up. */
  lemma {:induction false} EncodeParsed(b: seq<Byte>)
    ensures forall f :: f in Parse(b) ==> Encodable(f)
    ensures Encode(Parse(b)) + Rest(b) == b
    decreases |b|
  {
    if Complete(b) {
      EncodeParsed(AfterFirst(b));
      assert Parse(b)[1..] == Parse(AfterFirst(b));
      FirstEncodes(b);
    }
  }

  lemma LowByte(high: int, low: Byte)
    ensures (high * 0x100 + low) / 0x100 == high && (high * 0x100 + low) % 0x100 == low
  {
  }

  lemma WordsAreUnique(b0: Byte, b1: Byte, b2: Byte, b3: Byte)
    ensures 0 <= Word(b0, b1, b2, b3) < 0x1_0000_0000
    ensures UInt32BE(Word(b0, b1, b2, b3)) == [b0, b1, b2, b3]
  {
    LowByte((b0 * 0x100 + b1) * 0x100 + b2, b3);
    LowByte(b0 * 0x100 + b1, b2);
    LowByte(b0, b1);
  }

  lemma FirstEncodes(b: seq<Byte>)
    requires Complete(b)
    ensures Encodable(First(b)) && EncodeFrame(First(b)) + AfterFirst(b) == b
  {
    var n := ReadUInt32BE(b, 4);
    WordsAreUnique(b[4], b[5], b[6], b[7]);
    assert UInt32BE(n) == b[4..8];
    assert b == b[..4] + b[4..8] + b[8..8 + n] + b[8 + n..];
  }

  /**
   * What the reader of an encoded stream gets, wherever it was split and cut off: of each stream the
   * first max bytes, their number, and whether there were more.
   */
  lemma EncodedStreamOutput(frames: seq<Frame>, tail: seq<Byte>, maxStdoutBytes: nat, maxStderrBytes: nat)
    requires forall f :: f in frames ==> Encodable(f)
    requires !Complete(tail)
    ensures var r := OutputOf(Encode(frames) + tail, maxStdoutBytes, maxStderrBytes);
      var out, err := PayloadOf(frames, STDOUT), PayloadOf(frames, STDERR);
      && r.stdout.kept == out[..Min(|out|, maxStdoutBytes)] && r.stdout.bytes == |r.stdout.kept|
      && (r.stdout.truncated <==> |out| > maxStdoutBytes)
      && r.stderr.kept == err[..Min(|err|, maxStderrBytes)] && r.stderr.bytes == |r.stderr.kept|
      && (r.stderr.truncated <==> |err| > maxStderrBytes)
  {
    ParseEncoded(frames, tail);
  }

  // ---- The wire format in numbers ----

  function BigEndian(b0: int, b1: int, b2: int, b3: int): int {
    b0 * 16777216 + b1 * 65536 + b2 * 256 + b3
  }

  /**
   * One frame on the wire: eight header bytes, of which the first names the stream (1 for stdout, 2 for
   * stderr) and the last four give the payload's length, most significant byte first. Its payload goes to
   * that stream, and to none for any other first byte.
   */
  lemma FrameOnTheWire(kind: Byte, x: Byte, y: Byte, z: Byte, b4: Byte, b5: Byte, b6: Byte, b7: Byte, payload: seq<Byte>,
                       maxStdoutBytes: nat, maxStderrBytes: nat)
    requires |payload| == BigEndian(b4, b5, b6, b7)
    ensures var r := OutputOf([kind, x, y, z, b4, b5, b6, b7] + payload, maxStdoutBytes, maxStderrBytes);
      && r.stdout == SinkOf(if kind == 1 then payload else [], maxStdoutBytes)
      && r.stderr == SinkOf(if kind == 2 then payload else [], maxStderrBytes)
  {
    var all := [kind, x, y, z, b4, b5, b6, b7] + payload;
    assert ReadUInt32BE(all, 4) == |payload|;
    assert Complete(all) && First(all).payload == payload && AfterFirst(all) == [];
    var none: seq<Frame> := [];
    assert Parse([]) == none && Parse(all) == [First(all)];
    OneMorePayload(none, First(all), 1);
    OneMorePayload(none, First(all), 2);
    assert none + [First(all)] == [First(all)];
  }

  /** A frame of which a byte is missing is not taken yet. */
  lemma PartOfAFrameWaits(b: seq<Byte>, max: nat)
    requires |b| >= 8 ==> |b| - 8 < BigEndian(b[4], b[5], b[6], b[7])
    ensures Rest(b) == b && OutputOf(b, max, max) == Output(Sink([], 0, false), Sink([], 0, false))
  {
    assert |b| >= 8 ==> ReadUInt32BE(b, 4) == BigEndian(b[4], b[5], b[6], b[7]);
    assert !Complete(b);
  }
}
