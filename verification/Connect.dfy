/** The Enveloped-Message framing of the Connect protocol: a flag byte, a four-byte big-endian
    length and the payload, as `send` writes it and `readConnectFrame` reads it (session.go). */
module Connect {
  import opened Prelude
  import opened Errors

  const MAX_PAYLOAD := 0x400_0000  // 64 MiB

  const TWO_32 := 0x1_0000_0000

  datatype Frame = Frame(flag: byte, payload: seq<byte>)

  // ---- writing ----

  function BigEndian(n: nat): (b: seq<byte>)
    requires n < TWO_32
    ensures |b| == 4
  {
    [n / 0x100_0000, n / 0x1_0000 % 256, n / 0x100 % 256, n % 256]
  }

  /** The length field holds the low 32 bits of the payload's length. */
  function EncodeFrame(f: Frame): seq<byte> {
    [f.flag] + BigEndian(|f.payload| % TWO_32) + f.payload
  }

  /** The buffer `send` fills before it writes it out. */
  method FrameBuffer(payload: seq<byte>) returns (frame: array<byte>)
    ensures fresh(frame)
    ensures frame[..] == EncodeFrame(Frame(0, payload))
  {
    frame := new byte[5 + |payload|](_ => 0);
    PutUint32(frame, 1, |payload| % TWO_32);
    forall i | 0 <= i < |payload| {
      frame[5 + i] := payload[i];
    }
    assert frame[5..] == payload;
    assert frame[1..5] == BigEndian(|payload| % TWO_32);
    assert frame[..] == frame[..1] + frame[1..5] + frame[5..];
  }

  /** binary.BigEndian.PutUint32 */
  method PutUint32(buf: array<byte>, at: nat, v: nat)
    requires at + 4 <= buf.Length && v < TWO_32
    modifies buf
    ensures buf[at..at + 4] == BigEndian(v)
    ensures forall i :: 0 <= i < buf.Length && !(at <= i < at + 4) ==> buf[i] == old(buf[i])
  {
    buf[at], buf[at + 1] := v / 0x100_0000, v / 0x1_0000 % 256;
    buf[at + 2], buf[at + 3] := v / 0x100 % 256, v % 256;
  }

  // ---- reading ----

  /** The response body: its bytes, and the error a reader meets behind the last one. */
  class ByteReader {
    const data: seq<byte>
    const tail: Error
    var pos: nat

    constructor (data: seq<byte>, tail: Error)
      ensures this.data == data && this.tail == tail && pos == 0
    {
      this.data, this.tail, this.pos := data, tail, 0;
    }

    predicate Valid()
      reads this
    {
      pos <= |data|
    }

    /** io.ReadFull: a short read still consumes, and only an untouched end is the plain tail error. */
    method ReadFull(buf: array<byte>) returns (err: Option<Error>)
      requires Valid()
      modifies this`pos, buf
      ensures Valid()
      ensures err == FullReadError(data, tail, old(pos), buf.Length)
      ensures err.None? ==> pos == old(pos) + buf.Length && buf[..] == data[old(pos)..pos]
    {
      var n := 0;
      while n < buf.Length && pos < |data|
        invariant n <= buf.Length && pos <= |data| && pos == old(pos) + n
        invariant buf[..n] == data[old(pos)..pos]
      {
        buf[n] := data[pos];
        n, pos := n + 1, pos + 1;
      }
      if n == buf.Length {
        err := None;
      } else if n > 0 && tail == Eof {
        err := Some(UnexpectedEof);
      } else {
        err := Some(tail);
      }
    }
  }

  function FullReadError(data: seq<byte>, tail: Error, pos: nat, n: nat): Option<Error>
    requires pos <= |data|
  {
    if pos + n <= |data| then None
    else if pos < |data| && tail == Eof then Some(UnexpectedEof)
    else Some(tail)
  }

  function Uint32(b: seq<byte>): (n: nat)
    requires |b| == 4
    ensures n < TWO_32
  {
    b[0] as int * 0x100_0000 + b[1] as int * 0x1_0000 + b[2] as int * 0x100 + b[3] as int
  }

  const TOO_LARGE := Other("Cursor frame exceeds 64 MiB")

  /** The frame at byte `pos` and the position behind it. */
  function FrameAt(data: seq<byte>, tail: Error, pos: nat): (r: Result<(Frame, nat), Error>)
    requires pos <= |data|
    ensures r.Ok? ==> pos + 5 <= r.value.1 <= |data|
  {
    var err := FullReadError(data, tail, pos, 5);
    if err.Some? then Err(err.value)
    else
      var n := Uint32(data[pos + 1..pos + 5]);
      if n > MAX_PAYLOAD then Err(TOO_LARGE)
      else
        var err := FullReadError(data, tail, pos + 5, n);
        if err.Some? then Err(err.value)
        else Ok((Frame(data[pos], data[pos + 5..pos + 5 + n]), pos + 5 + n))
  }

  method ReadConnectFrame(reader: ByteReader) returns (r: Result<Frame, Error>)
    requires reader.Valid()
    modifies reader`pos
    ensures reader.Valid()
    ensures var want := FrameAt(reader.data, reader.tail, old(reader.pos));
            if want.Ok? then r == Ok(want.value.0) && reader.pos == want.value.1 else r == Err(want.error)
  {
    var header := new byte[5](_ => 0);
    var err := reader.ReadFull(header);
    if err.Some? {
      return Err(err.value);
    }
    assert header[1..] == header[..][1..] == reader.data[old(reader.pos) + 1..old(reader.pos) + 5];
    var length := Uint32(header[1..]);
    if length > MAX_PAYLOAD {
      return Err(TOO_LARGE);
    }
    var payload := new byte[length](_ => 0);
    err := reader.ReadFull(payload);
    if err.Some? {
      return Err(err.value);
    }
    r := Ok(Frame(header[0], payload[..]));
  }

  /** Every frame a reader gets before its first error, and that error. */
  function AllFrames(data: seq<byte>, tail: Error, pos: nat): (seq<Frame>, Error)
    requires pos <= |data|
    decreases |data| - pos
  {
    var r := FrameAt(data, tail, pos);
    if r.Err? then ([], r.error)
    else
      var rest := AllFrames(data, tail, r.value.1);
      ([r.value.0] + rest.0, rest.1)
  }

  // ---- properties ----

  lemma Uint32InvertsBigEndian(n: nat)
    requires n < TWO_32
    ensures Uint32(BigEndian(n)) == n
  {
    assert n / 0x1_0000 == n / 0x100_0000 * 256 + n / 0x1_0000 % 256;
    assert n / 0x100 == n / 0x1_0000 * 256 + n / 0x100 % 256;
    assert n == n / 0x100 * 256 + n % 256;
  }

  /** The envelope of the Connect protocol: the flags, the length as a big-endian number, the payload. */
  lemma EnvelopeLayout(f: Frame)
    ensures var e, n := EncodeFrame(f), |f.payload|;
      && |e| == 5 + n && e[0] == f.flag && e[5..] == f.payload
      && ((e[1] as int * 256 + e[2] as int) * 256 + e[3] as int) * 256 + e[4] as int == n % 0x1_0000_0000
  {
    var n := |f.payload| % TWO_32;
    assert n / 0x1_0000 == n / 0x100_0000 * 256 + n / 0x1_0000 % 256;
    assert n / 0x100 == n / 0x1_0000 * 256 + n / 0x100 % 256;
    assert n == n / 0x100 * 256 + n % 256;
  }

  /** A frame is read back whole exactly when its payload is at most 64 MiB. */
  lemma FrameRoundTrip(before: seq<byte>, f: Frame, after: seq<byte>, tail: Error)
    ensures var data, n := before + EncodeFrame(f) + after, |f.payload|;
      && (FrameAt(data, tail, |before|) == Ok((f, |before| + |EncodeFrame(f)|)) <==> n <= 64 * 1024 * 1024)
      && (64 * 1024 * 1024 < n < TWO_32 ==>
            FrameAt(data, tail, |before|) == Err(Other("Cursor frame exceeds 64 MiB")))
  {
    var data, pos, n := before + EncodeFrame(f) + after, |before|, |f.payload|;
    hide BigEndian, Uint32;
    assert data[pos + 1..pos + 5] == BigEndian(n % TWO_32);
    Uint32InvertsBigEndian(n % TWO_32);
    assert data[pos + 5..pos + 5 + n] == f.payload;
    assert data[pos] == f.flag;
  }

  function EncodeAll(fs: seq<Frame>): seq<byte> {
    if fs == [] then [] else EncodeFrame(fs[0]) + EncodeAll(fs[1..])
  }

  /** Frames written one after the other are read back in order, and then the tail of the body. */
  lemma {:induction false} FramesRoundTrip(data: seq<byte>, pos: nat, fs: seq<Frame>, tail: Error)
    requires forall i :: 0 <= i < |fs| ==> |fs[i].payload| <= MAX_PAYLOAD
    requires pos <= |data| && data[pos..] == EncodeAll(fs)
    ensures AllFrames(data, tail, pos) == (fs, tail)
    decreases |fs|
  {
    hide FrameAt, EncodeFrame;
    if fs != [] {
      SplitFirst(data, pos, fs);
      var next := pos + |EncodeFrame(fs[0])|;
      FrameRoundTrip(data[..pos], fs[0], EncodeAll(fs[1..]), tail);
      FramesRoundTrip(data, next, fs[1..], tail);
      hide AllFrames;
      AllFramesStep(data, tail, pos, fs[0], next);
      assert fs == [fs[0]] + fs[1..];
    } else {
      NothingLeft(data, tail);
    }
  }

  lemma NothingLeft(data: seq<byte>, tail: Error)
    ensures FrameAt(data, tail, |data|) == Err(tail)
  {}

  lemma AllFramesStep(data: seq<byte>, tail: Error, pos: nat, f: Frame, next: nat)
    requires pos <= |data| && FrameAt(data, tail, pos) == Ok((f, next))
    ensures var rest := AllFrames(data, tail, next); AllFrames(data, tail, pos) == ([f] + rest.0, rest.1)
  {}

  lemma SplitFirst(data: seq<byte>, pos: nat, fs: seq<Frame>)
    requires fs != [] && pos <= |data| && data[pos..] == EncodeAll(fs)
    ensures var head := EncodeFrame(fs[0]);
            && pos + |head| <= |data|
            && data == data[..pos] + head + EncodeAll(fs[1..])
            && data[pos + |head|..] == EncodeAll(fs[1..])
  {
    var head := EncodeFrame(fs[0]);
    assert data == data[..pos] + data[pos..];
    assert data[pos + |head|..] == data[pos..][|head|..];
  }

  /** Cutting the body anywhere loses frames off the end only. */
  lemma {:induction false} TruncationKeepsAPrefix(data: seq<byte>, k: nat, pos: nat, tail: Error, tail': Error)
    requires pos <= k <= |data|
    ensures AllFrames(data[..k], tail', pos).0 <= AllFrames(data, tail, pos).0
    decreases k - pos
  {
    var cut := data[..k];
    var r := FrameAt(cut, tail', pos);
    if r.Ok? {
      assert cut[pos + 1..pos + 5] == data[pos + 1..pos + 5];
      var next := r.value.1;
      assert cut[pos + 5..next] == data[pos + 5..next];
      assert FrameAt(data, tail, pos) == r;
      TruncationKeepsAPrefix(data, k, next, tail, tail');
    }
  }

  /** What a reader is told about a body that ends early: the clean end of the stream is reported
      both between frames and, as `readConnectFrame` reads header and payload separately, right
      after the header of a frame whose payload is missing altogether. */
  lemma CleanEndExactly(data: seq<byte>, pos: nat)
    requires pos <= |data|
    ensures FrameAt(data, Eof, pos) == Err(Eof) <==>
              || pos == |data|
              || (pos + 5 == |data| && 0 < Uint32(data[pos + 1..pos + 5]) <= MAX_PAYLOAD)
  {
  }
}
