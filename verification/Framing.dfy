/**
 * Length-prefixed framing: the encoder and the two incremental decoders, the
 * server's frame reader (server/internal/transport/framing.go) and the
 * client's read loop (web/shared/client.ts). A frame body is opaque bytes.
 */
module Framing {
  import opened Common

  type Byte = b: int | 0 <= b < 256
  type Bytes = seq<Byte>

  const MAX_FRAME_LEN := 0x10_0000
  const HEADER_LEN := 4
  const WORD := 0x1_0000_0000

  // ---- Big-endian words ----

  function Put32(n: int): (r: Bytes)
    requires 0 <= n < WORD
    ensures |r| == HEADER_LEN
  {
    [n / 0x100_0000, n / 0x1_0000 % 256, n / 256 % 256, n % 256]
  }

  function Get32(b: Bytes): (n: int)
    requires |b| >= HEADER_LEN
    ensures 0 <= n < WORD
  {
    b[0] as int * 0x100_0000 + b[1] as int * 0x1_0000 + b[2] as int * 256 + b[3]
  }

  lemma GetPut(n: int, rest: Bytes)
    requires 0 <= n < WORD
    ensures Get32(Put32(n) + rest) == n
  {
  }

  lemma PutGet(b: Bytes)
    requires |b| >= HEADER_LEN
    ensures Put32(Get32(b)) == b[..HEADER_LEN]
  {
    var n := Get32(b);
    assert n / 0x100_0000 == b[0];
    var high := b[0] as int * 256 + b[1];
    assert n / 0x1_0000 == high;
    assert n / 256 == high * 256 + b[2];
  }

  // ---- Frames ----

  /** The length is truncated to 32 bits, as the encoder's conversion does. */
  function Encode(body: Bytes): Bytes {
    Put32(|body| % WORD) + body
  }

  function EncodeAll(bodies: seq<Bytes>): Bytes {
    if bodies == [] then [] else Encode(bodies[0]) + EncodeAll(bodies[1..])
  }

  datatype Taken = NeedMore | Frame(body: Bytes, rest: Bytes) | TooLong(declared: int)

  /** takeFrame: one complete frame off the front of the buffer, if there is one. */
  function Take(buf: Bytes): Taken {
    if |buf| < HEADER_LEN then NeedMore
    else
      var n := Get32(buf);
      if n > MAX_FRAME_LEN then TooLong(n)
      else if |buf| < HEADER_LEN + n then NeedMore
      else Frame(buf[HEADER_LEN..HEADER_LEN + n], buf[HEADER_LEN + n..])
  }

  /** A frame is read back exactly when its body is within the cap. */
  lemma TakeEncode(body: Bytes, rest: Bytes)
    ensures Take(Encode(body) + rest) == Frame(body, rest) <==> |body| <= MAX_FRAME_LEN
    ensures MAX_FRAME_LEN < |body| < WORD ==> Take(Encode(body) + rest) == TooLong(|body|)
  {
    var buf := Encode(body) + rest;
    assert buf == Put32(|body| % WORD) + (body + rest);
    GetPut(|body| % WORD, body + rest);
    if |body| <= MAX_FRAME_LEN {
      assert buf[HEADER_LEN..HEADER_LEN + |body|] == body;
      assert buf[HEADER_LEN + |body|..] == rest;
    }
  }

  /** And a frame taken is a frame that the encoder would have written. */
  lemma EncodeTake(buf: Bytes)
    requires Take(buf).Frame?
    ensures buf == Encode(Take(buf).body) + Take(buf).rest && |Take(buf).body| <= MAX_FRAME_LEN
  {
    PutGet(buf);
    var n := Get32(buf);
    assert buf == buf[..HEADER_LEN] + buf[HEADER_LEN..HEADER_LEN + n] + buf[HEADER_LEN + n..];
  }

  lemma TakeMore(buf: Bytes, more: Bytes)
    ensures match Take(buf)
            case NeedMore => true
            case Frame(body, rest) => Take(buf + more) == Frame(body, rest + more)
            case TooLong(n) => Take(buf + more) == TooLong(n)
  {
    match Take(buf) {
      case Frame(body, rest) =>
        var n := Get32(buf);
        assert (buf + more)[HEADER_LEN..HEADER_LEN + n] == body;
        assert (buf + more)[HEADER_LEN + n..] == rest + more;
      case _ =>
    }
  }

  lemma TakeShrinks(buf: Bytes)
    ensures Take(buf).Frame? ==> |Take(buf).rest| < |buf|
  {
  }

  // ---- Draining a buffer ----

  datatype Drained = Drained(frames: seq<Bytes>, rest: Bytes, failed: bool)

  /** drainFrames: every complete frame off the front, and what is left. */
  function Drain(buf: Bytes): Drained
    decreases |buf|
  {
    match Take(buf)
    case NeedMore => Drained([], buf, false)
    case TooLong(_) => Drained([], buf, true)
    case Frame(body, rest) =>
      var d := Drain(rest);
      d.(frames := [body] + d.frames)
  }

  /** Draining loses and invents nothing, and fails exactly at a declared length over the cap. */
  lemma {:induction false} DrainSplits(buf: Bytes)
    ensures var d := Drain(buf);
            && buf == EncodeAll(d.frames) + d.rest
            && (forall f :: f in d.frames ==> |f| <= MAX_FRAME_LEN)
            && (d.failed <==> |d.rest| >= HEADER_LEN && Get32(d.rest) > MAX_FRAME_LEN)
            && (!d.failed ==> |d.rest| < HEADER_LEN || |d.rest| < HEADER_LEN + Get32(d.rest))
    decreases |buf|
  {
    hide Encode, EncodeAll, Get32;
    TakeStops(buf);
    TakeShrinks(buf);
    hide Take;
    if Take(buf).Frame? {
      EncodeTake(buf);
      DrainSplits(Take(buf).rest);
      var d := Drain(Take(buf).rest);
      EncodeAllCons(Take(buf).body, d.frames, d.rest);
    } else {
      EncodeAllNil(buf);
    }
  }

  lemma EncodeAllNil(buf: Bytes)
    ensures buf == EncodeAll([]) + buf
  {
  }

  lemma EncodeAllCons(body: Bytes, bodies: seq<Bytes>, rest: Bytes)
    ensures Encode(body) + (EncodeAll(bodies) + rest) == EncodeAll([body] + bodies) + rest
  {
    hide Encode;
    assert ([body] + bodies)[1..] == bodies;
  }

  lemma TakeStops(buf: Bytes)
    ensures Take(buf).TooLong? <==> |buf| >= HEADER_LEN && Get32(buf) > MAX_FRAME_LEN
    ensures Take(buf).NeedMore? ==> |buf| < HEADER_LEN || |buf| < HEADER_LEN + Get32(buf)
  {
  }

  lemma DrainOne(body: Bytes, rest: Bytes)
    requires |body| <= MAX_FRAME_LEN
    ensures Drain(Encode(body) + rest) == var d := Drain(rest); d.(frames := [body] + d.frames)
  {
    hide Take, Encode;
    TakeEncode(body, rest);
  }

  /**
   * The round trip: whatever bodies within the cap are written, they come back
   * in order, with the partial tail kept.
   */
  lemma {:induction false} DrainEncodeAll(bodies: seq<Bytes>, tail: Bytes)
    requires forall b :: b in bodies ==> |b| <= MAX_FRAME_LEN
    ensures Drain(EncodeAll(bodies) + tail) ==
            var d := Drain(tail); d.(frames := bodies + d.frames)
  {
    hide Drain, Encode;
    if bodies == [] {
      assert EncodeAll(bodies) + tail == tail;
      assert bodies + Drain(tail).frames == Drain(tail).frames;
    } else {
      var rest := EncodeAll(bodies[1..]) + tail;
      assert EncodeAll(bodies) + tail == Encode(bodies[0]) + rest;
      assert forall b :: b in bodies[1..] ==> b in bodies;
      assert bodies[0] in bodies;
      DrainOne(bodies[0], rest);
      DrainEncodeAll(bodies[1..], tail);
      assert bodies + Drain(tail).frames == [bodies[0]] + (bodies[1..] + Drain(tail).frames);
    }
  }

  /** More bytes only ever add to what a buffer drains to. */
  lemma {:induction false} DrainAppend(buf: Bytes, more: Bytes)
    ensures var d := Drain(buf);
            if d.failed then Drain(buf + more).failed && Drain(buf + more).frames == d.frames
            else var e := Drain(d.rest + more);
                 Drain(buf + more) == e.(frames := d.frames + e.frames)
    decreases |buf|
  {
    hide Get32;
    TakeMore(buf, more);
    TakeShrinks(buf);
    hide Take;
    if Take(buf).Frame? {
      var rest := Take(buf).rest;
      DrainAppend(rest, more);
      var d := Drain(buf);
      if !d.failed {
        var e := Drain(d.rest + more);
        assert [d.frames[0]] + (Drain(rest).frames + e.frames) == d.frames + e.frames;
      }
    }
  }

  function Concat(chunks: seq<Bytes>): Bytes {
    if chunks == [] then [] else chunks[0] + Concat(chunks[1..])
  }

  // ---- The client's loop over chunks ----

  /** What the client has dispatched, keeps buffered, and whether it tore the stream down. */
  function Feed(buf: Bytes, chunks: seq<Bytes>): Drained
    decreases |chunks|
  {
    if chunks == [] then Drained([], buf, false)
    else
      var d := Drain(buf + chunks[0]);
      if d.failed then d
      else
        var e := Feed(d.rest, chunks[1..]);
        e.(frames := d.frames + e.frames)
  }

  /** A remainder: a buffer with no complete frame and no violation at its front. */
  predicate Partial(buf: Bytes) {
    Take(buf).NeedMore?
  }

  lemma {:induction false} DrainLeavesPartial(buf: Bytes)
    ensures !Drain(buf).failed ==> Partial(Drain(buf).rest)
    decreases |buf|
  {
    if Take(buf).Frame? {
      DrainLeavesPartial(Take(buf).rest);
    }
  }

  /**
   * However the stream is cut into chunks, the client dispatches the same
   * frames, keeps the same rest, and fails alike.
   */
  lemma {:induction false} FeedIsDrain(buf: Bytes, chunks: seq<Bytes>)
    requires Partial(buf)
    ensures var d, f := Drain(buf + Concat(chunks)), Feed(buf, chunks);
            f.frames == d.frames && f.failed == d.failed && (!d.failed ==> f.rest == d.rest)
    decreases |chunks|
  {
    if chunks == [] {
      assert buf + Concat(chunks) == buf;
    } else {
      var more := Concat(chunks[1..]);
      assert buf + Concat(chunks) == buf + chunks[0] + more;
      DrainAppend(buf + chunks[0], more);
      DrainLeavesPartial(buf + chunks[0]);
      if !Drain(buf + chunks[0]).failed {
        FeedIsDrain(Drain(buf + chunks[0]).rest, chunks[1..]);
      }
    }
  }

  // ---- The server's reader over reads ----

  datatype Failure = Eof | UnexpectedEof | FrameTooLong | Broken

  /** One Read of the stream: bytes, and the error that came with them, if any. */
  datatype Read = Read(data: Bytes, error: Option<Failure>)

  datatype Result = Body(body: Bytes) | Error(failure: Failure)

  datatype Reader = Reader(buf: Bytes, incoming: seq<Read>)

  /** The error a Read gives the caller, once its bytes are in the buffer. */
  function EndWith(error: Failure, buf: Bytes): Failure {
    if error == Eof && buf != [] then UnexpectedEof else error
  }

  /** An exhausted stream reads as a bare EOF. */
  function ReadFrame(r: Reader): (Result, Reader)
    decreases |r.incoming|
  {
    match Take(r.buf)
    case TooLong(_) => (Error(FrameTooLong), r)
    case Frame(body, rest) => (Body(body), r.(buf := rest))
    case NeedMore =>
      if r.incoming == [] then (Error(EndWith(Eof, r.buf)), r)
      else
        var after := Reader(r.buf + r.incoming[0].data, r.incoming[1..]);
        if r.incoming[0].error.Some? then (Error(EndWith(r.incoming[0].error.value, after.buf)), after)
        else ReadFrame(after)
  }

  /** Everything a connection's loop gets: frames until the first error. */
  function ReadAll(r: Reader): (seq<Bytes>, Failure)
    decreases |r.incoming|, |r.buf|
  {
    match Take(r.buf)
    case TooLong(_) => ([], FrameTooLong)
    case Frame(body, rest) =>
      var (frames, end) := ReadAll(r.(buf := rest));
      ([body] + frames, end)
    case NeedMore =>
      if r.incoming == [] then ([], EndWith(Eof, r.buf))
      else
        var buf := r.buf + r.incoming[0].data;
        if r.incoming[0].error.Some? then ([], EndWith(r.incoming[0].error.value, buf))
        else ReadAll(Reader(buf, r.incoming[1..]))
  }

  /** ReadAll is ReadFrame, repeated. */
  lemma {:induction false} ReadAllRepeats(r: Reader)
    ensures match ReadFrame(r)
            case (Error(failure), _) => ReadAll(r) == ([], failure)
            case (Body(body), next) =>
              var (frames, end) := ReadAll(next);
              ReadAll(r) == ([body] + frames, end)
    decreases |r.incoming|
  {
    if Take(r.buf).NeedMore? && r.incoming != [] && r.incoming[0].error.None? {
      ReadAllRepeats(Reader(r.buf + r.incoming[0].data, r.incoming[1..]));
    }
  }

  function Chunks(chunks: seq<Bytes>): seq<Read> {
    if chunks == [] then [] else [Read(chunks[0], None)] + Chunks(chunks[1..])
  }

  lemma {:induction false} ReadAllBuffered(buf: Bytes, incoming: seq<Read>)
    ensures var d := Drain(buf);
            if d.failed then ReadAll(Reader(buf, incoming)) == (d.frames, FrameTooLong)
            else var (frames, end) := ReadAll(Reader(d.rest, incoming));
                 ReadAll(Reader(buf, incoming)) == (d.frames + frames, end)
    decreases |buf|
  {
    match Take(buf) {
      case Frame(body, rest) =>
        ReadAllBuffered(rest, incoming);
        if !Drain(buf).failed {
          var (frames, end) := ReadAll(Reader(Drain(rest).rest, incoming));
          assert [body] + (Drain(rest).frames + frames) == Drain(buf).frames + frames;
        }
      case NeedMore =>
        var (frames, end) := ReadAll(Reader(buf, incoming));
        assert [] + frames == frames;
      case TooLong(_) =>
    }
  }

  /** A last read, of whatever bytes, that brings the end of the stream with it. */
  function WithEnd(chunks: seq<Bytes>, last: Bytes): seq<Read> {
    Chunks(chunks) + [Read(last, Some(Eof))]
  }

  lemma ReadOneChunk(buf: Bytes, chunk: Bytes, later: seq<Read>)
    requires Partial(buf)
    ensures ReadAll(Reader(buf, [Read(chunk, None)] + later)) == ReadAll(Reader(buf + chunk, later))
  {
    assert ([Read(chunk, None)] + later)[1..] == later;
  }

  lemma ReadLast(buf: Bytes, last: Bytes)
    requires Partial(buf)
    ensures ReadAll(Reader(buf, [Read(last, Some(Eof))])) == ([], EndWith(Eof, buf + last))
  {
  }

  /** What the reader delivers: everything complete before the read that brings EOF, and nothing that came with it. */
  lemma {:induction false} ReadAllIs(buf: Bytes, chunks: seq<Bytes>, last: Bytes)
    requires Partial(buf)
    ensures var d := Drain(buf + Concat(chunks));
            ReadAll(Reader(buf, WithEnd(chunks, last))) ==
              (d.frames, if d.failed then FrameTooLong else if d.rest + last == [] then Eof else UnexpectedEof)
    decreases |chunks|
  {
    hide ReadAll, Take;
    if chunks == [] {
      assert buf + Concat(chunks) == buf;
      assert WithEnd(chunks, last) == [Read(last, Some(Eof))];
      ReadLast(buf, last);
    } else {
      var more := Concat(chunks[1..]);
      assert WithEnd(chunks, last) == [Read(chunks[0], None)] + WithEnd(chunks[1..], last);
      ReadOneChunk(buf, chunks[0], WithEnd(chunks[1..], last));
      assert buf + Concat(chunks) == buf + chunks[0] + more;
      hide Drain;
      ReadAllBuffered(buf + chunks[0], WithEnd(chunks[1..], last));
      DrainAppend(buf + chunks[0], more);
      DrainLeavesPartial(buf + chunks[0]);
      if !Drain(buf + chunks[0]).failed {
        ReadAllIs(Drain(buf + chunks[0]).rest, chunks[1..], last);
      }
    }
  }

  /** With EOF on its own, server and client agree on every stream and every way of cutting it up. */
  lemma DecodersAgree(chunks: seq<Bytes>, cuts: seq<Bytes>)
    requires Concat(chunks) == Concat(cuts)
    ensures var (frames, end) := ReadAll(Reader([], WithEnd(chunks, [])));
            var client := Feed([], cuts);
            && frames == client.frames
            && (end == FrameTooLong <==> client.failed)
            && (!client.failed ==> end == if client.rest == [] then Eof else UnexpectedEof)
  {
    ReadAllIs([], chunks, []);
    FeedIsDrain([], cuts);
    assert [] + Concat(chunks) == Concat(chunks);
  }

  lemma EmptyDrains()
    ensures Drain([]) == Drained([], [], false) && Partial([])
  {
  }

  /** The server's round trip, for every list of bodies within the cap and every chunking. */
  lemma ReaderRoundTrip(bodies: seq<Bytes>, chunks: seq<Bytes>)
    requires forall b :: b in bodies ==> |b| <= MAX_FRAME_LEN
    requires Concat(chunks) == EncodeAll(bodies)
    ensures ReadAll(Reader([], WithEnd(chunks, []))) == (bodies, Eof)
    ensures Feed([], chunks) == Drained(bodies, [], false)
  {
    hide Drain, ReadAll, Feed, Encode;
    EmptyDrains();
    ReadAllIs([], chunks, []);
    FeedIsDrain([], chunks);
    DrainEncodeAll(bodies, []);
    assert [] + Concat(chunks) == EncodeAll(bodies) + [];
    assert bodies + [] == bodies;
  }

  /**
   * A stream of whole frames is read out in full, ending in a clean EOF,
   * exactly when EOF comes in a read of its own: bytes that arrive together
   * with it are reported as an unexpected end, and their frames are dropped.
   */
  lemma CleanEndNeedsBareEof(bodies: seq<Bytes>, chunks: seq<Bytes>, last: Bytes)
    requires forall b :: b in bodies ==> |b| <= MAX_FRAME_LEN
    requires Concat(chunks) + last == EncodeAll(bodies)
    ensures ReadAll(Reader([], WithEnd(chunks, last))) == (bodies, Eof) <==> last == []
    ensures last != [] ==> ReadAll(Reader([], WithEnd(chunks, last))).1 == UnexpectedEof
  {
    hide Encode, Drain, ReadAll;
    EmptyDrains();
    ReadAllIs([], chunks, last);
    DrainEncodeAll(bodies, []);
    assert [] + Concat(chunks) == Concat(chunks);
    assert EncodeAll(bodies) + [] == EncodeAll(bodies);
    assert bodies + [] == bodies;
    DrainAppend(Concat(chunks), last);
    if last == [] {
      assert Concat(chunks) + last == Concat(chunks);
    }
  }

  /** One frame that arrives whole together with EOF is lost. */
  lemma FrameWithEofLost(body: Bytes)
    requires |body| <= MAX_FRAME_LEN
    ensures ReadAll(Reader([], [Read(Encode(body), Some(Eof))])) == ([], UnexpectedEof)
    ensures ReadAll(Reader([], [Read(Encode(body), None), Read([], Some(Eof))])) == ([body], Eof)
  {
    hide Drain, ReadAll, Feed, Encode;
    EmptyDrains();
    assert WithEnd([], Encode(body)) == [Read(Encode(body), Some(Eof))];
    ReadAllIs([], [], Encode(body));
    assert [] + Concat([]) == [];
    TakeEncode(body, []);
    assert Encode(body) + [] == Encode(body) && Encode(body) != [] by { TakeShrinks(Encode(body)); }
    assert [Encode(body)][1..] == [];
    assert Chunks([Encode(body)]) == [Read(Encode(body), None)];
    assert WithEnd([Encode(body)], []) == [Read(Encode(body), None), Read([], Some(Eof))];
    assert Concat([Encode(body)]) == EncodeAll([body]) by { hide *; assert Concat([]) == EncodeAll([]); }
    ReaderRoundTrip([body], [Encode(body)]);
  }

  // ---- The program's own forms ----

  /** Writes the prefix and copies the body into one buffer. */
  method EncodeFrame(body: Bytes) returns (frame: Bytes)
    ensures frame == Encode(body)
  {
    var buffer := new Byte[HEADER_LEN + |body|];
    var n := |body| % WORD;
    buffer[0], buffer[1], buffer[2], buffer[3] := n / 0x100_0000, n / 0x1_0000 % 256, n / 256 % 256, n % 256;
    for i := 0 to |body|
      invariant buffer[..HEADER_LEN] == Put32(n)
      invariant forall j :: 0 <= j < i ==> buffer[HEADER_LEN + j] == body[j]
    {
      buffer[HEADER_LEN + i] := body[i];
    }
    frame := buffer[..];
    assert frame == buffer[..HEADER_LEN] + buffer[HEADER_LEN..];
    assert buffer[HEADER_LEN..] == body;
  }

  class FrameReader {
    var buf: Bytes
    var incoming: seq<Read>

    ghost function View(): Reader
      reads this
    {
      Reader(buf, incoming)
    }

    constructor (stream: seq<Read>)
      ensures View() == Reader([], stream)
    {
      buf, incoming := [], stream;
    }

    method TakeOne() returns (body: Bytes, ok: bool, tooLong: bool)
      modifies this`buf
      ensures tooLong == old(Take(buf)).TooLong? && ok == old(Take(buf)).Frame?
      ensures if ok then old(Take(buf)) == Frame(body, buf) else buf == old(buf)
    {
      body, ok, tooLong := [], false, false;
      if |buf| < HEADER_LEN {
        return;
      }
      var n := Get32(buf);
      if n > MAX_FRAME_LEN {
        tooLong := true;
        return;
      }
      var total := HEADER_LEN + n;
      if |buf| < total {
        return;
      }
      body, ok := buf[HEADER_LEN..total], true;
      buf := buf[total..];
    }

    method ReadOne() returns (r: Result)
      modifies this
      ensures (r, View()) == ReadFrame(old(View()))
    {
      while true
        invariant ReadFrame(View()) == ReadFrame(old(View()))
        decreases |incoming|
      {
        var body, ok, tooLong := TakeOne();
        if tooLong {
          return Error(FrameTooLong);
        }
        if ok {
          return Body(body);
        }
        var error := Some(Eof);
        if incoming != [] {
          buf := buf + incoming[0].data;
          error := incoming[0].error;
          incoming := incoming[1..];
        }
        if error.Some? {
          if error.value == Eof && |buf| > 0 {
            return Error(UnexpectedEof);
          }
          return Error(error.value);
        }
      }
    }
  }

  /** The client side: bytes come in chunks and complete bodies are dispatched. */
  class FrameClient {
    var wsBuf: Bytes
    var dispatched: seq<Bytes>
    var closed: bool
    var down: bool

    constructor ()
      ensures wsBuf == [] && dispatched == [] && !closed && !down
    {
      wsBuf, dispatched, closed, down := [], [], false, false;
    }

    /** Reports the loss of the connection once, and not at all after a close of our own. */
    method HandleClose()
      modifies this`down
      ensures down == (old(down) || !closed)
    {
      if !closed && !down {
        down := true;
      }
    }

    /** Dispatches every complete frame of `data`; the answer is the unconsumed rest, or nothing on a violation. */
    method DrainFrames(data: Bytes) returns (rest: Option<Bytes>)
      modifies this`dispatched
      ensures var d := Drain(data);
              && dispatched == old(dispatched) + d.frames
              && rest == if d.failed then None else Some(d.rest)
    {
      var buf := data;
      while true
        invariant var d, e := Drain(data), Drain(buf);
                  old(dispatched) + d.frames == dispatched + e.frames && d.failed == e.failed && d.rest == e.rest
        decreases |buf|
      {
        if |buf| < HEADER_LEN {
          break;
        }
        var len := Get32(buf);
        if len > MAX_FRAME_LEN {
          return None;
        }
        if |buf| < HEADER_LEN + len {
          break;
        }
        var body := buf[HEADER_LEN..HEADER_LEN + len];
        assert Drain(buf).frames == [body] + Drain(buf[HEADER_LEN + len..]).frames;
        buf := buf[HEADER_LEN + len..];
        dispatched := dispatched + [body];
      }
      return Some(buf);
    }

    /** One WebSocket message. */
    method FeedWS(data: Bytes)
      modifies this
      ensures var d := Drain(old(wsBuf) + data);
              && dispatched == old(dispatched) + d.frames
              && closed == old(closed)
              && (if d.failed then wsBuf == [] && down == (old(down) || !closed)
                  else wsBuf == d.rest && down == old(down))
    {
      wsBuf := wsBuf + data;
      var drained := DrainFrames(wsBuf);
      if drained.None? {
        wsBuf := [];
        HandleClose();
        return;
      }
      wsBuf := drained.value;
    }

    /** The WebTransport loop over the chunks of a stream, until it ends or breaks the protocol. */
    method ReadLoopWT(chunks: seq<Bytes>)
      modifies this`dispatched, this`down
      ensures dispatched == old(dispatched) + Feed([], chunks).frames
      ensures down == (old(down) || !closed)
    {
      var buf: Bytes := [];
      for i := 0 to |chunks|
        invariant old(dispatched) + Feed([], chunks).frames == dispatched + Feed(buf, chunks[i..]).frames
        invariant down == old(down)
      {
        assert chunks[i..][0] == chunks[i] && chunks[i..][1..] == chunks[i + 1..];
        var drained := DrainFrames(buf + chunks[i]);
        if drained.None? {
          HandleClose();
          return;
        }
        buf := drained.value;
      }
      HandleClose();
    }
  }
}
