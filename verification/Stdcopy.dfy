/**
 The demultiplexer for Docker's stdcopy framing: an 8-byte header with the stream in byte 0
 and the payload size, big-endian, in bytes 4 to 7, then the payload.
 */
module Stdcopy {
  import opened Basics
  const PREFIX: nat := 8
  const STDOUT: Byte := 1
  const STDERR: Byte := 2

  // ---- the meaning of a stream, byte by byte ----

  /** Between bytes: inside a header, or inside a payload with `remain` bytes to come. */
  datatype State = Head(prefix: seq<Byte>) | Body(current: Byte, remain: nat)

  predicate IsStream(b: Byte) {
    b == STDOUT || b == STDERR
  }

  predicate Valid(s: State) {
    match s
    case Head(prefix) => |prefix| < PREFIX
    case Body(current, remain) => IsStream(current) && remain > 0
  }

  function Size(b: seq<Byte>): nat
    requires |b| == 4
  {
    var n: nat := b[0];
    ((n * 256 + b[1]) * 256 + b[2]) * 256 + b[3]
  }

  function InBody(current: Byte, remain: nat): State {
    if remain == 0 then Head([]) else Body(current, remain)
  }

  /** What some bytes lead to: the state after them, their output, and whether a header was invalid. */
  datatype Outcome = Outcome(st: State, stdout: seq<Byte>, stderr: seq<Byte>, failed: bool)

  function Emit(current: Byte, msg: seq<Byte>, o: Outcome): Outcome {
    if current == STDOUT then o.(stdout := msg + o.stdout) else o.(stderr := msg + o.stderr)
  }

  /** A complete header: an unknown stream is an error, which starts over. */
  function AfterHead(h: seq<Byte>): State
    requires |h| == PREFIX
  {
    if IsStream(h[0]) then InBody(h[0], Size(h[4..])) else Head([])
  }

  function Run(s: State, bs: seq<Byte>): Outcome
    requires Valid(s)
    decreases |bs|
  {
    if bs == [] then Outcome(s, [], [], false)
    else
      match s
      case Head(prefix) =>
        var h := prefix + [bs[0]];
        if |h| < PREFIX then Run(Head(h), bs[1..])
        else if !IsStream(h[0]) then Outcome(Head([]), [], [], true)
        else Run(AfterHead(h), bs[1..])
      case Body(current, remain) => Emit(current, [bs[0]], Run(InBody(current, remain - 1), bs[1..]))
  }

  // ---- splitting a stream ----

  function Then(a: Outcome, b: Outcome): Outcome {
    Outcome(b.st, a.stdout + b.stdout, a.stderr + b.stderr, b.failed)
  }

  lemma {:induction false} RunValid(s: State, bs: seq<Byte>)
    requires Valid(s)
    ensures Valid(Run(s, bs).st)
    decreases |bs|
  {
    if bs == [] {
    } else {
      match s
      case Head(prefix) =>
        var h := prefix + [bs[0]];
        if |h| < PREFIX {
          RunValid(Head(h), bs[1..]);
        } else if IsStream(h[0]) {
          RunValid(AfterHead(h), bs[1..]);
        }
      case Body(current, remain) => RunValid(InBody(current, remain - 1), bs[1..]);
    }
  }

  lemma EmitThen(current: Byte, msg: seq<Byte>, a: Outcome, b: Outcome)
    ensures Then(Emit(current, msg, a), b) == Emit(current, msg, Then(a, b))
  {
    assert msg + a.stdout + b.stdout == msg + (a.stdout + b.stdout);
    assert msg + a.stderr + b.stderr == msg + (a.stderr + b.stderr);
  }

  /** Bytes that come in two pieces are taken one piece after the other, unless the first ends in an error. */
  lemma {:induction false} RunAppend(s: State, a: seq<Byte>, b: seq<Byte>)
    requires Valid(s)
    ensures Valid(Run(s, a).st)
    ensures Run(s, a + b) == if Run(s, a).failed then Run(s, a) else Then(Run(s, a), Run(Run(s, a).st, b))
    decreases |a|
  {
    RunValid(s, a);
    if a == [] {
      assert a + b == b;
    } else {
      assert (a + b)[0] == a[0] && (a + b)[1..] == a[1..] + b;
      match s
      case Head(prefix) =>
        var h := prefix + [a[0]];
        if |h| < PREFIX {
          RunAppend(Head(h), a[1..], b);
        } else if IsStream(h[0]) {
          RunAppend(AfterHead(h), a[1..], b);
        }
      case Body(current, remain) =>
        var next := InBody(current, remain - 1);
        RunAppend(next, a[1..], b);
        var first := Run(next, a[1..]);
        if !first.failed {
          EmitThen(current, [a[0]], first, Run(first.st, b));
        }
    }
  }

  function Flatten(chunks: seq<seq<Byte>>): seq<Byte> {
    if chunks == [] then [] else chunks[0] + Flatten(chunks[1..])
  }

  /** Successive calls, one per chunk, until one fails. */
  function RunChunks(s: State, chunks: seq<seq<Byte>>): Outcome
    requires Valid(s)
    decreases |chunks|
  {
    if chunks == [] then Outcome(s, [], [], false)
    else
      var first := Run(s, chunks[0]);
      RunValid(s, chunks[0]);
      if first.failed then first else Then(first, RunChunks(first.st, chunks[1..]))
  }

  /** Chunking does not matter: outputs, final state and error are those of one call on the whole. */
  lemma {:induction false} ChunksDoNotMatter(s: State, chunks: seq<seq<Byte>>)
    requires Valid(s)
    ensures RunChunks(s, chunks) == Run(s, Flatten(chunks))
    decreases |chunks|
  {
    if chunks == [] {
    } else {
      RunAppend(s, chunks[0], Flatten(chunks[1..]));
      var first := Run(s, chunks[0]);
      if !first.failed {
        ChunksDoNotMatter(first.st, chunks[1..]);
      }
    }
  }

  // ---- frames ----

  /** A frame; `pad` are the three header bytes nobody reads. */
  datatype Frame = Frame(stream: Byte, pad: seq<Byte>, payload: seq<Byte>) {
    predicate Valid() {
      IsStream(stream) && |pad| == 3 && |payload| < 0x1_0000_0000
    }
  }

  function BigEndian(n: nat): (b: seq<Byte>)
    requires n < 0x1_0000_0000
    ensures |b| == 4
  {
    [n / 256 / 256 / 256, n / 256 / 256 % 256, n / 256 % 256, n % 256]
  }

  lemma SizeOfBigEndian(n: nat)
    requires n < 0x1_0000_0000
    ensures Size(BigEndian(n)) == n
  {
  }

  lemma BigEndianOfSize(b: seq<Byte>)
    requires |b| == 4
    ensures Size(b) < 0x1_0000_0000 && BigEndian(Size(b)) == b
  {
    var x, y, z, n := b[0] as int, (b[0] as int) * 256 + b[1], ((b[0] as int) * 256 + b[1]) * 256 + b[2], Size(b);
    assert n / 256 == z && n % 256 == b[3];
    assert z / 256 == y && z % 256 == b[2];
    assert y / 256 == x && y % 256 == b[1];
  }

  function Encode(f: Frame): seq<Byte>
    requires f.Valid()
  {
    [f.stream] + f.pad + BigEndian(|f.payload|) + f.payload
  }

  ghost predicate AllValid(fs: seq<Frame>) {
    forall f :: f in fs ==> f.Valid()
  }

  function EncodeAll(fs: seq<Frame>): seq<Byte>
    requires AllValid(fs)
  {
    if fs == [] then []
    else
      assert fs[0] in fs && forall f :: f in fs[1..] ==> f in fs;
      Encode(fs[0]) + EncodeAll(fs[1..])
  }

  /** All payload of one stream, in order. */
  function Payload(fs: seq<Frame>, stream: Byte): seq<Byte> {
    if fs == [] then []
    else (if fs[0].stream == stream then fs[0].payload else []) + Payload(fs[1..], stream)
  }

  /** Bytes that do not complete the header. */
  lemma {:induction false} HeadPartial(prefix: seq<Byte>, bs: seq<Byte>)
    requires |prefix| + |bs| < PREFIX
    ensures Run(Head(prefix), bs) == Outcome(Head(prefix + bs), [], [], false)
    decreases |bs|
  {
    if bs == [] {
      assert prefix + bs == prefix;
    } else {
      assert prefix + [bs[0]] + bs[1..] == prefix + bs;
      HeadPartial(prefix + [bs[0]], bs[1..]);
    }
  }

  /** Bytes that complete the header, and what follows. */
  lemma {:induction false} HeadFull(prefix: seq<Byte>, bs: seq<Byte>, rest: seq<Byte>)
    requires |prefix| < PREFIX && |prefix| + |bs| == PREFIX
    ensures Run(Head(prefix), bs + rest)
            == if !IsStream((prefix + bs)[0]) then Outcome(Head([]), [], [], true) else Run(AfterHead(prefix + bs), rest)
    decreases |bs|
  {
    var h := prefix + [bs[0]];
    assert (bs + rest)[0] == bs[0] && (bs + rest)[1..] == bs[1..] + rest;
    if |bs| == 1 {
      assert bs == [bs[0]] && bs[1..] + rest == rest;
    } else {
      assert h + bs[1..] == prefix + bs;
      HeadFull(h, bs[1..], rest);
    }
  }

  lemma BodyByte(current: Byte, remain: nat, b: Byte, rest: seq<Byte>)
    requires IsStream(current) && remain > 0
    ensures Run(InBody(current, remain), [b] + rest) == Emit(current, [b], Run(InBody(current, remain - 1), rest))
  {
    assert ([b] + rest)[1..] == rest;
  }

  lemma EmitNothing(current: Byte, o: Outcome)
    ensures Emit(current, [], o) == o
  {
    assert [] + o.stdout == o.stdout && [] + o.stderr == o.stderr;
  }

  /** Bytes of the payload, and what follows. */
  lemma {:induction false} BodyPart(current: Byte, remain: nat, msg: seq<Byte>, rest: seq<Byte>)
    requires IsStream(current) && |msg| <= remain
    ensures Run(InBody(current, remain), msg + rest) == Emit(current, msg, Run(InBody(current, remain - |msg|), rest))
    decreases |msg|
  {
    if msg == [] {
      assert msg + rest == rest;
      EmitNothing(current, Run(InBody(current, remain), rest));
    } else {
      var b, more := msg[0], msg[1..];
      assert msg + rest == [b] + (more + rest) && msg == [b] + more;
      BodyByte(current, remain, b, more + rest);
      BodyPart(current, remain - 1, more, rest);
      EmitTwice(current, b, more, Run(InBody(current, remain - |msg|), rest));
    }
  }

  lemma EmitTwice(current: Byte, b: Byte, msg: seq<Byte>, o: Outcome)
    ensures Emit(current, [b], Emit(current, msg, o)) == Emit(current, [b] + msg, o)
  {
    assert [b] + (msg + o.stdout) == [b] + msg + o.stdout;
    assert [b] + (msg + o.stderr) == [b] + msg + o.stderr;
  }

  lemma FrameRun(f: Frame, rest: seq<Byte>)
    requires f.Valid()
    ensures Run(Head([]), Encode(f) + rest) == Emit(f.stream, f.payload, Run(Head([]), rest))
  {
    var size := BigEndian(|f.payload|);
    var h := [f.stream] + f.pad + size;
    assert [] + h == h && h[0] == f.stream && h[4..] == size;
    assert Encode(f) + rest == h + (f.payload + rest);
    SizeOfBigEndian(|f.payload|);
    HeadFull([], h, f.payload + rest);
    BodyPart(f.stream, |f.payload|, f.payload, rest);
  }

  /** Any list of frames, encoded and cut anywhere, is decoded to the payloads of each stream. */
  lemma {:induction false} DecodeEncoded(fs: seq<Frame>, chunks: seq<seq<Byte>>)
    requires AllValid(fs) && Flatten(chunks) == EncodeAll(fs)
    ensures RunChunks(Head([]), chunks) == Outcome(Head([]), Payload(fs, STDOUT), Payload(fs, STDERR), false)
  {
    ChunksDoNotMatter(Head([]), chunks);
    EncodedRun(fs);
  }

  lemma {:induction false} EncodedRun(fs: seq<Frame>)
    requires AllValid(fs)
    ensures Run(Head([]), EncodeAll(fs)) == Outcome(Head([]), Payload(fs, STDOUT), Payload(fs, STDERR), false)
  {
    if fs == [] {
    } else {
      assert fs[0] in fs && forall f :: f in fs[1..] ==> f in fs;
      FrameRun(fs[0], EncodeAll(fs[1..]));
      EncodedRun(fs[1..]);
      assert [] + Payload(fs[1..], STDOUT) == Payload(fs[1..], STDOUT);
      assert [] + Payload(fs[1..], STDERR) == Payload(fs[1..], STDERR);
    }
  }

  /** The bytes of a header are those of the frame that they and the payload make. */
  lemma HeaderIsEncoded(h: seq<Byte>, payload: seq<Byte>)
    requires |h| == PREFIX && IsStream(h[0]) && |payload| == Size(h[4..])
    ensures var f := Frame(h[0], h[1..4], payload); f.Valid() && Encode(f) == h + payload
  {
    BigEndianOfSize(h[4..]);
    assert [h[0]] + h[1..4] + h[4..] == h;
  }

  /** The bytes are taken without error up to the end of a frame. */
  ghost predicate Taken(bs: seq<Byte>) {
    Run(Head([]), bs).st == Head([]) && !Run(Head([]), bs).failed
  }

  lemma TakenHasHead(bs: seq<Byte>)
    requires bs != [] && Taken(bs)
    ensures |bs| >= PREFIX
  {
    if |bs| < PREFIX { HeadPartial([], bs); }
  }

  /** Behind a header that is taken its payload is complete. */
  lemma TakenHasBody(h: seq<Byte>, rest: seq<Byte>)
    requires |h| == PREFIX && Taken(h + rest)
    ensures IsStream(h[0]) && |rest| >= Size(h[4..]) && Taken(rest[Size(h[4..])..])
  {
    assert [] + h == h;
    HeadFull([], h, rest);
    var n := Size(h[4..]);
    var ml := if |rest| < n then |rest| else n;
    assert rest == rest[..ml] + rest[ml..];
    BodyPart(h[0], n, rest[..ml], rest[ml..]);
  }

  /** Conversely, bytes that are taken without error up to the end of a frame are the encoding of frames. */
  lemma {:induction false} OnlyEncodings(bs: seq<Byte>) returns (fs: seq<Frame>)
    requires Taken(bs)
    ensures AllValid(fs) && EncodeAll(fs) == bs
    decreases |bs|
  {
    if bs == [] {
      fs := [];
    } else {
      TakenHasHead(bs);
      var h, rest := bs[..PREFIX], bs[PREFIX..];
      assert bs == h + rest;
      TakenHasBody(h, rest);
      var n := Size(h[4..]);
      var more := OnlyEncodings(rest[n..]);
      HeaderIsEncoded(h, rest[..n]);
      fs := [Frame(h[0], h[1..4], rest[..n])] + more;
      OneMoreFrame(h, rest, n);
    }
  }

  lemma OneMoreFrame(h: seq<Byte>, rest: seq<Byte>, n: nat)
    requires n <= |rest|
    ensures h + rest[..n] + rest[n..] == h + rest
  {
  }

  /** Exactly the encodings of frame lists are taken whole. */
  lemma TakenIffEncoded(bs: seq<Byte>)
    ensures Taken(bs) <==> exists fs :: AllValid(fs) && EncodeAll(fs) == bs
  {
    if Taken(bs) {
      var fs := OnlyEncodings(bs);
    }
    forall fs | AllValid(fs) && EncodeAll(fs) == bs ensures Taken(bs) {
      EncodedRun(fs);
    }
  }
}
