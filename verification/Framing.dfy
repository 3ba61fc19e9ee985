/** The frame protocol of the Go SDK: encoding one frame, reading the frame at
    the front of a buffer, and the dispatch loop over a growing read buffer. */
module Framing {
  import opened Options

  type byte = b: int | 0 <= b < 256

  const PROTOCOL_VERSION: byte := 0x02
  const HEADER_SIZE: nat := 7
  const MAX_FRAME_SIZE: nat := 16 * 1024 * 1024
  const FORMAT_JSON: byte := 0x01
  const FORMAT_MSGPACK: byte := 0x02

  /** The two serialization libraries, indexed by format. */
  datatype Codec<!V> = Codec(marshal: (byte, V) -> Option<seq<byte>>, unmarshal: (byte, seq<byte>) -> Option<V>)

  predicate Known(format: byte) { format == FORMAT_JSON || format == FORMAT_MSGPACK }

  /** What a serialization library promises: what it wrote it can read, and it
      never writes nothing. */
  ghost predicate RoundTrips<V(!new)>(codec: Codec<V>) {
    forall format: byte, v: V :: Known(format) ==>
      (codec.marshal(format, v).Some? ==>
        && codec.marshal(format, v).value != []
        && codec.unmarshal(format, codec.marshal(format, v).value) == Some(v))
  }

  // ---------------------------------------------------------------------
  // The big-endian length
  // ---------------------------------------------------------------------

  function PutUint32(n: nat): (b: seq<byte>)
    requires n < 0x1_0000_0000
    ensures |b| == 4
  {
    [n / 0x100_0000, n / 0x1_0000 % 0x100, n / 0x100 % 0x100, n % 0x100]
  }

  function Uint32(b: seq<byte>): (n: nat)
    requires |b| >= 4
    ensures n < 0x1_0000_0000
  {
    var b0: int, b1: int, b2: int, b3: int := b[0], b[1], b[2], b[3];
    ((b0 * 0x100 + b1) * 0x100 + b2) * 0x100 + b3
  }

  lemma Uint32RoundTrips(n: nat, rest: seq<byte>)
    requires n < 0x1_0000_0000
    ensures Uint32(PutUint32(n) + rest) == n
  {
    assert n / 0x1_0000 == n / 0x100_0000 * 0x100 + n / 0x1_0000 % 0x100;
    assert n / 0x100 == n / 0x1_0000 * 0x100 + n / 0x100 % 0x100;
    assert n == n / 0x100 * 0x100 + n % 0x100;
  }

  // ---------------------------------------------------------------------
  // EncodeFrame
  // ---------------------------------------------------------------------

  datatype Encoding = Frame(bytes: seq<byte>) | UnsupportedFormat | SerializationError | PayloadTooLarge

  function FrameBytes(msgType: byte, format: byte, body: seq<byte>): seq<byte>
    requires |body| <= MAX_FRAME_SIZE
  {
    PutUint32(|body|) + [PROTOCOL_VERSION, msgType, format] + body
  }

  function Encoded<V>(codec: Codec<V>, msgType: byte, payload: V, format: byte): Encoding {
    if !Known(format) then UnsupportedFormat
    else
      match codec.marshal(format, payload)
      case None => SerializationError
      case Some(body) =>
        if |body| > MAX_FRAME_SIZE then PayloadTooLarge else Frame(FrameBytes(msgType, format, body))
  }

  /** Allocates the whole frame and fills it in place: the length, the three
      header bytes, and the body after them. */
  method EncodeFrame<V>(codec: Codec<V>, msgType: byte, payload: V, format: byte)
    returns (e: Encoding)
    ensures e == Encoded(codec, msgType, payload, format)
  {
    if format != FORMAT_MSGPACK && format != FORMAT_JSON {
      return UnsupportedFormat;
    }
    var marshalled := codec.marshal(format, payload);
    if marshalled.None? {
      return SerializationError;
    }
    var body := marshalled.value;
    if |body| > MAX_FRAME_SIZE {
      return PayloadTooLarge;
    }
    var frame := new byte[HEADER_SIZE + |body|];
    PutLength(frame, |body|);
    frame[4] := PROTOCOL_VERSION;
    frame[5] := msgType;
    frame[6] := format;
    for i := 0 to |body|
      invariant frame[..HEADER_SIZE] == PutUint32(|body|) + [PROTOCOL_VERSION, msgType, format]
      invariant frame[HEADER_SIZE..HEADER_SIZE + i] == body[..i]
    {
      frame[HEADER_SIZE + i] := body[i];
      assert frame[HEADER_SIZE..HEADER_SIZE + i + 1] == frame[HEADER_SIZE..HEADER_SIZE + i] + [body[i]];
    }
    assert frame[..] == frame[..HEADER_SIZE] + frame[HEADER_SIZE..];
    assert body[..|body|] == body;
    e := Frame(frame[..]);
  }

  method PutLength(frame: array<byte>, n: nat)
    requires frame.Length >= HEADER_SIZE && n < 0x1_0000_0000
    modifies frame
    ensures frame[..4] == PutUint32(n)
    ensures frame[4..] == old(frame[4..])
  {
    frame[0], frame[1], frame[2], frame[3]
      := n / 0x100_0000, n / 0x1_0000 % 0x100, n / 0x100 % 0x100, n % 0x100;
  }

  // ---------------------------------------------------------------------
  // nextFrame
  // ---------------------------------------------------------------------

  /** The front of a read buffer. A bare header decodes to no payload. */
  datatype Step<V> =
    | Incomplete
    | Decoded(msgType: byte, format: byte, payload: Option<V>, consumed: nat)
    | BadBody(msgType: byte, consumed: nat)
    | BadFraming

  function NextFrame<V>(codec: Codec<V>, buffer: seq<byte>): (step: Step<V>)
    ensures step.Decoded? || step.BadBody? ==> HEADER_SIZE <= step.consumed <= |buffer|
  {
    if |buffer| < HEADER_SIZE then Incomplete
    else
      var payloadLen := Uint32(buffer);
      if payloadLen > MAX_FRAME_SIZE then BadFraming
      else
        var totalLen := HEADER_SIZE + payloadLen;
        if |buffer| < totalLen then Incomplete
        else if buffer[4] != PROTOCOL_VERSION then BadFraming
        else
          var msgType, format := buffer[5], buffer[6];
          if payloadLen == 0 then Decoded(msgType, format, None, totalLen)
          else if !Known(format) then BadBody(msgType, totalLen)
          else
            match codec.unmarshal(format, buffer[HEADER_SIZE..totalLen])
            case None => BadBody(msgType, totalLen)
            case Some(v) => Decoded(msgType, format, Some(v), totalLen)
  }

  datatype Tried<V> = Whole(frame: Step<V>) | NotYet | ProtocolError

  /** TryDecodeFrame: both kinds of bad frame read as one error. */
  function TryDecodeFrame<V>(codec: Codec<V>, buffer: seq<byte>): Tried<V> {
    var step := NextFrame(codec, buffer);
    match step
    case Decoded(_, _, _, _) => Whole(step)
    case Incomplete => NotYet
    case _ => ProtocolError
  }

  /** Once the front of a buffer is decided, bytes that arrive later change nothing. */
  lemma NextFrameIsStable<V>(codec: Codec<V>, buffer: seq<byte>, more: seq<byte>)
    requires NextFrame(codec, buffer) != Incomplete
    ensures NextFrame(codec, buffer + more) == NextFrame(codec, buffer)
  {
    assert Uint32(buffer + more) == Uint32(buffer);
    var totalLen := HEADER_SIZE + Uint32(buffer);
    if totalLen <= |buffer| {
      assert (buffer + more)[HEADER_SIZE..totalLen] == buffer[HEADER_SIZE..totalLen];
    }
  }

  /** What the front of a buffer is, told on its bytes. The length is the first four,
      most significant first; more than sixteen mebibytes cannot be trusted, and neither
      can another version than 2, which is looked at once the whole frame is there; a
      frame without a body is handed over without one, whatever its format; and a body in
      another format than 1 or 2, or one its library cannot read, is bad. */
  lemma FrontsAreReadByTheirBytes<V>(codec: Codec<V>, b0: byte, b1: byte, b2: byte, b3: byte, version: byte,
                                     msgType: byte, format: byte, after: seq<byte>)
    ensures var length := b0 as int * 16777216 + b1 as int * 65536 + b2 as int * 256 + b3 as int;
      NextFrame(codec, [b0, b1, b2, b3, version, msgType, format] + after)
      == if length > 16777216 then BadFraming
         else if |after| < length then Incomplete
         else if version != 2 then BadFraming
         else if length == 0 then Decoded(msgType, format, None, 7)
         else if format !in {1, 2} || codec.unmarshal(format, after[..length]).None? then BadBody(msgType, 7 + length)
         else Decoded(msgType, format, codec.unmarshal(format, after[..length]), 7 + length)
  {
    var header := [b0, b1, b2, b3, version, msgType, format];
    var buffer := header + after;
    var length := b0 as int * 16777216 + b1 as int * 65536 + b2 as int * 256 + b3 as int;
    assert buffer[0] == b0 && buffer[1] == b1 && buffer[2] == b2 && buffer[3] == b3;
    assert buffer[4] == version && buffer[5] == msgType && buffer[6] == format;
    assert Uint32(buffer) == length;
    if length <= |after| {
      assert buffer[7..7 + length] == after[..length];
    }
  }

  /** What EncodeFrame answers, told on the bytes. A format other than 1 and 2, a payload
      its library cannot write, and a body of more than sixteen mebibytes are refused;
      otherwise the frame is the body's length, most significant byte first, the version,
      the type, the format, and the body. */
  lemma FramesAreWrittenByTheirBytes<V>(codec: Codec<V>, msgType: byte, v: V, format: byte)
    ensures var e, body := Encoded(codec, msgType, v, format), codec.marshal(format, v);
      && (e.UnsupportedFormat? <==> format !in {1, 2})
      && (e.SerializationError? <==> format in {1, 2} && body.None?)
      && (e.PayloadTooLarge? <==> format in {1, 2} && body.Some? && |body.value| > 16777216)
      && (e.Frame? ==>
            var f := e.bytes;
            && |f| == 7 + |body.value| && f[4] == 2 && f[5] == msgType && f[6] == format && f[7..] == body.value
            && f[0] as int * 16777216 + f[1] as int * 65536 + f[2] as int * 256 + f[3] as int == |body.value|)
  {
    if Encoded(codec, msgType, v, format).Frame? {
      var body := codec.marshal(format, v).value;
      Uint32RoundTrips(|body|, [PROTOCOL_VERSION, msgType, format] + body);
      assert FrameBytes(msgType, format, body) == PutUint32(|body|) + ([PROTOCOL_VERSION, msgType, format] + body);
    }
  }

  lemma ShortIsIncomplete<V>(codec: Codec<V>, buffer: seq<byte>)
    requires |buffer| < HEADER_SIZE
    ensures NextFrame(codec, buffer) == Incomplete
  {
  }

  lemma NextFrameReadsEncoded<V(!new)>(codec: Codec<V>, msgType: byte, v: V, format: byte, more: seq<byte>)
    requires RoundTrips(codec) && Encoded(codec, msgType, v, format).Frame?
    ensures var bytes := Encoded(codec, msgType, v, format).bytes;
      NextFrame(codec, bytes + more) == Decoded(msgType, format, Some(v), |bytes|)
  {
    var body := codec.marshal(format, v).value;
    var bytes := FrameBytes(msgType, format, body);
    Uint32RoundTrips(|body|, [PROTOCOL_VERSION, msgType, format] + body);
    assert bytes == PutUint32(|body|) + ([PROTOCOL_VERSION, msgType, format] + body);
    assert bytes[HEADER_SIZE..HEADER_SIZE + |body|] == body;
    assert NextFrame(codec, bytes) == Decoded(msgType, format, Some(v), |bytes|);
    NextFrameIsStable(codec, bytes, more);
  }

  /** Any shorter piece of an encoded frame is not enough. */
  lemma PartOfAFrameIsIncomplete<V(!new)>(codec: Codec<V>, msgType: byte, v: V, format: byte, n: nat)
    requires RoundTrips(codec) && Encoded(codec, msgType, v, format).Frame?
    requires n < |Encoded(codec, msgType, v, format).bytes|
    ensures NextFrame(codec, Encoded(codec, msgType, v, format).bytes[..n]) == Incomplete
  {
    var bytes := Encoded(codec, msgType, v, format).bytes;
    NextFrameReadsEncoded(codec, msgType, v, format, []);
    assert bytes + [] == bytes && bytes[..n] + bytes[n..] == bytes;
    hide Encoded, RoundTrips;
    if NextFrame(codec, bytes[..n]) != Incomplete {
      NextFrameIsStable(codec, bytes[..n], bytes[n..]);
      StepsFit(codec, bytes[..n]);
    }
  }

  lemma StepsFit<V>(codec: Codec<V>, buffer: seq<byte>)
    ensures NextFrame(codec, buffer).Decoded? ==> NextFrame(codec, buffer).consumed <= |buffer|
  {
  }

  /** TryDecodeFrame answers an encoded frame exactly when all of it is there. */
  lemma TryDecodeWaitsForTheWhole<V(!new)>(codec: Codec<V>, msgType: byte, v: V, format: byte, more: seq<byte>, n: nat)
    requires RoundTrips(codec) && Encoded(codec, msgType, v, format).Frame?
    requires n <= |Encoded(codec, msgType, v, format).bytes + more|
    ensures var bytes := Encoded(codec, msgType, v, format).bytes;
      TryDecodeFrame(codec, (bytes + more)[..n])
        == if n < |bytes| then NotYet else Whole(Decoded(msgType, format, Some(v), |bytes|))
  {
    var bytes := Encoded(codec, msgType, v, format).bytes;
    if n < |bytes| {
      PartOfAFrameIsIncomplete(codec, msgType, v, format, n);
      assert (bytes + more)[..n] == bytes[..n];
    } else {
      NextFrameReadsEncoded(codec, msgType, v, format, more[..n - |bytes|]);
      assert (bytes + more)[..n] == bytes + more[..n - |bytes|];
    }
    hide NextFrame, Encoded, RoundTrips;
  }

  // ---------------------------------------------------------------------
  // The dispatch loop
  // ---------------------------------------------------------------------

  /** What a dispatch pass does, in order. */
  datatype Event<V> =
    | Handled(msgType: byte, format: byte, payload: Option<V>)
    | Skipped(msgType: byte)
    | BufferReset

  datatype Parsed<V> = Parsed(events: seq<Event<V>>, rest: seq<byte>)

  function EventOf<V>(step: Step<V>): Event<V>
    requires step.Decoded? || step.BadBody?
  {
    if step.BadBody? then Skipped(step.msgType) else Handled(step.msgType, step.format, step.payload)
  }

  /** One pass over a whole buffer. */
  function Parse<V>(codec: Codec<V>, buffer: seq<byte>): (p: Parsed<V>)
    ensures |p.rest| <= |buffer| && (buffer != [] ==> p.events != [] || p.rest == buffer)
    decreases |buffer|
  {
    match NextFrame(codec, buffer)
    case Incomplete => Parsed([], buffer)
    case BadFraming => Parsed([BufferReset], [])
    case step =>
      var p := Parse(codec, buffer[step.consumed..]);
      Parsed([EventOf(step)] + p.events, p.rest)
  }

  /** What a pass does with the front of its buffer, told on the bytes: a bad header
      empties the buffer and ends the pass, an unfinished frame waits, and a whole frame
      is handled, or skipped for its body, and the pass goes on behind it. */
  lemma FrontsAreDispatched<V>(codec: Codec<V>, b0: byte, b1: byte, b2: byte, b3: byte, version: byte, msgType: byte,
                               format: byte, after: seq<byte>)
    ensures var buffer := [b0, b1, b2, b3, version, msgType, format] + after;
      var length := b0 as int * 16777216 + b1 as int * 65536 + b2 as int * 256 + b3 as int;
      Parse(codec, buffer)
      == if length > 16777216 || (|after| >= length && version != 2) then Parsed([BufferReset], [])
         else if |after| < length then Parsed([], buffer)
         else
           var p := Parse(codec, after[length..]);
           var v := if format in {1, 2} then codec.unmarshal(format, after[..length]) else None;
           var e := if length > 0 && v.None? then Skipped(msgType)
             else Handled(msgType, format, if length > 0 then v else None);
           Parsed([e] + p.events, p.rest)
  {
    var buffer := [b0, b1, b2, b3, version, msgType, format] + after;
    var length := b0 as int * 16777216 + b1 as int * 65536 + b2 as int * 256 + b3 as int;
    FrontsAreReadByTheirBytes(codec, b0, b1, b2, b3, version, msgType, format, after);
    hide NextFrame;
    assert length <= |after| ==> buffer[7 + length..] == after[length..];
  }

  /** With `events` done and `rest` still buffered, a pass over `start` goes on. */
  ghost predicate Continues<V>(codec: Codec<V>, start: seq<byte>, events: seq<Event<V>>, rest: seq<byte>) {
    var p, q := Parse(codec, start), Parse(codec, rest);
    p.events == events + q.events && p.rest == q.rest
  }

  lemma ParseContinues<V>(codec: Codec<V>, start: seq<byte>, events: seq<Event<V>>, rest: seq<byte>)
    ensures Continues(codec, start, [], start)
    ensures Continues(codec, start, events, rest) ==>
      var p, step := Parse(codec, start), NextFrame(codec, rest);
      match step
      case Incomplete => p.events == events && p.rest == rest
      case BadFraming => p.events == events + [BufferReset] && p.rest == []
      case _ => Continues(codec, start, events + [EventOf(step)], rest[step.consumed..])
  {
    hide NextFrame;
    var step := NextFrame(codec, rest);
    if step.Decoded? || step.BadBody? {
      var q := Parse(codec, rest[step.consumed..]);
      assert (events + [EventOf(step)]) + q.events == events + ([EventOf(step)] + q.events);
    }
  }

  /** The read side of a client: the buffer, and the dispatch pass over it. */
  class FrameReader<!V> {
    const codec: Codec<V>
    var readBuffer: seq<byte>

    constructor (codec: Codec<V>)
      ensures readBuffer == [] && this.codec == codec
    {
      this.codec := codec;
      readBuffer := [];
    }

    method DispatchFrames() returns (events: seq<Event<V>>)
      modifies this
      ensures var p := Parse(codec, old(readBuffer)); events == p.events && readBuffer == p.rest
    {
      hide Continues, NextFrame, Parse;
      events := [];
      ParseContinues(codec, readBuffer, events, readBuffer);
      while |readBuffer| >= HEADER_SIZE
        invariant Continues(codec, old(readBuffer), events, readBuffer)
        decreases |readBuffer|
      {
        var step := NextFrame(codec, readBuffer);
        ParseContinues(codec, old(readBuffer), events, readBuffer);
        match step {
          case Incomplete => return;
          case BadFraming =>
            readBuffer := [];
            return events + [BufferReset];
          case BadBody(msgType, n) =>
            readBuffer := readBuffer[n..];
            events := events + [Skipped(msgType)];
          case Decoded(msgType, format, payload, n) =>
            readBuffer := readBuffer[n..];
            events := events + [Handled(msgType, format, payload)];
        }
      }
      ShortIsIncomplete(codec, readBuffer);
      ParseContinues(codec, old(readBuffer), events, readBuffer);
    }

    /** One turn of the read loop: append what was read, then dispatch. */
    method ReadChunk(chunk: seq<byte>) returns (events: seq<Event<V>>)
      modifies this
      ensures var p := Parse(codec, old(readBuffer) + chunk); events == p.events && readBuffer == p.rest
    {
      readBuffer := readBuffer + chunk;
      events := DispatchFrames();
    }
  }

  /** The read loop over the chunks a stream arrives in. */
  function ReadChunks<V>(codec: Codec<V>, buffer: seq<byte>, chunks: seq<seq<byte>>): Parsed<V>
    decreases |chunks|
  {
    if chunks == [] then Parsed([], buffer)
    else
      var p := Parse(codec, buffer + chunks[0]);
      var q := ReadChunks(codec, p.rest, chunks[1..]);
      Parsed(p.events + q.events, q.rest)
  }

  function Flatten(chunks: seq<seq<byte>>): seq<byte> {
    if chunks == [] then [] else chunks[0] + Flatten(chunks[1..])
  }

  // ---------------------------------------------------------------------
  // Chunk independence
  // ---------------------------------------------------------------------

  /** How many bytes it takes to find the first bad header, if there is one. An
      oversized length shows in the header; a bad version only once the whole
      frame has arrived. */
  function FirstBadHeader<V>(codec: Codec<V>, buffer: seq<byte>): (d: Option<nat>)
    ensures d.Some? ==> HEADER_SIZE <= d.value <= |buffer|
    decreases |buffer|
  {
    match NextFrame(codec, buffer)
    case Incomplete => None
    case BadFraming =>
      Some(if Uint32(buffer) > MAX_FRAME_SIZE then HEADER_SIZE else HEADER_SIZE + Uint32(buffer))
    case step =>
      match FirstBadHeader(codec, buffer[step.consumed..])
      case None => None
      case Some(d) => Some(step.consumed + d)
  }

  lemma {:induction false} ParseResumes<V>(codec: Codec<V>, a: seq<byte>, b: seq<byte>)
    requires FirstBadHeader(codec, a).None?
    ensures var p, q := Parse(codec, a), Parse(codec, Parse(codec, a).rest + b);
      Parse(codec, a + b).events == p.events + q.events && Parse(codec, a + b).rest == q.rest
    decreases |a|
  {
    hide NextFrame;
    var step := NextFrame(codec, a);
    if step != Incomplete {
      NextFrameIsStable(codec, a, b);
      var a' := a[step.consumed..];
      assert (a + b)[step.consumed..] == a' + b;
      ParseResumes(codec, a', b);
      hide EventOf;
      var e := [EventOf(step)];
      var p, q := Parse(codec, a'), Parse(codec, Parse(codec, a').rest + b);
      assert e + (p.events + q.events) == (e + p.events) + q.events;
    }
  }

  /** A bad header drops everything buffered with it, whatever follows. */
  lemma {:induction false} ResetDropsTheRest<V>(codec: Codec<V>, a: seq<byte>, b: seq<byte>)
    requires FirstBadHeader(codec, a).Some?
    ensures Parse(codec, a + b) == Parse(codec, a) && Parse(codec, a).rest == []
    decreases |a|
  {
    var step := NextFrame(codec, a);
    NextFrameIsStable(codec, a, b);
    if step != BadFraming {
      assert (a + b)[step.consumed..] == a[step.consumed..] + b;
      ResetDropsTheRest(codec, a[step.consumed..], b);
    }
  }

  /** A prefix shows the first bad header exactly when it is long enough. */
  lemma {:induction false} BadHeaderOfPrefix<V>(codec: Codec<V>, a: seq<byte>, b: seq<byte>)
    ensures var d := FirstBadHeader(codec, a + b);
      FirstBadHeader(codec, a) == if d.Some? && d.value <= |a| then d else None
    decreases |a|
  {
    var step := NextFrame(codec, a);
    if step == Incomplete {
      if |a| >= HEADER_SIZE {
        assert Uint32(a + b) == Uint32(a);
      }
    } else {
      NextFrameIsStable(codec, a, b);
      if step == BadFraming {
        assert Uint32(a + b) == Uint32(a);
      } else {
        assert (a + b)[step.consumed..] == a[step.consumed..] + b;
        BadHeaderOfPrefix(codec, a[step.consumed..], b);
      }
    }
  }

  lemma {:induction false} CleanRunMatches<V>(codec: Codec<V>, buffer: seq<byte>, chunks: seq<seq<byte>>)
    requires FirstBadHeader(codec, buffer + Flatten(chunks)).None?
    requires NextFrame(codec, buffer) == Incomplete
    ensures var p, q := ReadChunks(codec, buffer, chunks), Parse(codec, buffer + Flatten(chunks));
      p.events == q.events && p.rest == q.rest
    decreases |chunks|
  {
    if chunks == [] {
      assert buffer + Flatten(chunks) == buffer;
    } else {
      var a, b := buffer + chunks[0], Flatten(chunks[1..]);
      assert buffer + Flatten(chunks) == a + b;
      BadHeaderOfPrefix(codec, a, b);
      ParseResumes(codec, a, b);
      RestIsIncomplete(codec, a);
      RestOfClean(codec, a, b);
      CleanRunMatches(codec, Parse(codec, a).rest, chunks[1..]);
    }
  }

  lemma {:induction false} RestIsIncomplete<V>(codec: Codec<V>, a: seq<byte>)
    ensures NextFrame(codec, Parse(codec, a).rest) == Incomplete
    decreases |a|
  {
    var step := NextFrame(codec, a);
    if step.Decoded? || step.BadBody? {
      RestIsIncomplete(codec, a[step.consumed..]);
    }
  }

  /** Where the first bad header of a stream lies does not depend on the frames
      already taken from it. */
  lemma {:induction false} RestOfClean<V>(codec: Codec<V>, a: seq<byte>, b: seq<byte>)
    requires FirstBadHeader(codec, a).None?
    ensures var d, taken := FirstBadHeader(codec, Parse(codec, a).rest + b), |a| - |Parse(codec, a).rest|;
      FirstBadHeader(codec, a + b) == if d.None? then None else Some(taken + d.value)
    decreases |a|
  {
    hide NextFrame;
    var step := NextFrame(codec, a);
    if step != Incomplete {
      NextFrameIsStable(codec, a, b);
      assert (a + b)[step.consumed..] == a[step.consumed..] + b;
      RestOfClean(codec, a[step.consumed..], b);
    }
  }

  /** A stream whose bad header completes on its very last byte reads the same
      however it is split: there is nothing behind the reset to lose. */
  lemma {:induction false} LateResetMatches<V>(codec: Codec<V>, buffer: seq<byte>, chunks: seq<seq<byte>>)
    requires FirstBadHeader(codec, buffer + Flatten(chunks)) == Some(|buffer + Flatten(chunks)|)
    requires NextFrame(codec, buffer) == Incomplete
    ensures var p, q := ReadChunks(codec, buffer, chunks), Parse(codec, buffer + Flatten(chunks));
      p.events == q.events && p.rest == q.rest
    decreases |chunks|
  {
    hide NextFrame;
    assert Flatten(chunks) == [] ==> buffer + Flatten(chunks) == buffer;
    if chunks != [] {
      var a, b := buffer + chunks[0], Flatten(chunks[1..]);
      assert buffer + Flatten(chunks) == a + b;
      BadHeaderOfPrefix(codec, a, b);
      if b == [] {
        assert a + b == a;
        ResetDropsTheRest(codec, a, []);
        EmptyChunksDoNothing(codec, chunks[1..]);
      } else {
        ParseResumes(codec, a, b);
        RestIsIncomplete(codec, a);
        RestOfClean(codec, a, b);
        LateResetMatches(codec, Parse(codec, a).rest, chunks[1..]);
      }
    }
  }

  lemma {:induction false} EmptyChunksDoNothing<V>(codec: Codec<V>, chunks: seq<seq<byte>>)
    requires Flatten(chunks) == []
    ensures var p := ReadChunks(codec, [], chunks); p.events == [] && p.rest == []
  {
    if chunks != [] {
      assert chunks[0] == [] && [] + chunks[0] == [];
      EmptyChunksDoNothing(codec, chunks[1..]);
    }
  }

  ghost predicate SplitsAgree<V>(codec: Codec<V>, chunks: seq<seq<byte>>, bytes: seq<byte>) {
    var p, q := ReadChunks(codec, [], chunks), Parse(codec, bytes);
    p.events == q.events && p.rest == q.rest
  }

  /** However a stream is cut into reads, the loop handles the same frames, skips
      the same bodies, resets at the same place and leaves the same bytes, exactly
      when the stream has no bad header, or has one that its last byte completes. */
  lemma ChunkIndependence<V>(codec: Codec<V>, bytes: seq<byte>)
    ensures (forall chunks :: Flatten(chunks) == bytes ==> SplitsAgree(codec, chunks, bytes))
       <==> (var d := FirstBadHeader(codec, bytes); d.None? || d.value == |bytes|)
  {
    hide NextFrame;
    var d := FirstBadHeader(codec, bytes);
    if d.None? || d.value == |bytes| {
      forall chunks | Flatten(chunks) == bytes
        ensures SplitsAgree(codec, chunks, bytes)
      {
        assert [] + Flatten(chunks) == bytes;
        RestIsIncomplete(codec, []);
        if d.None? {
          CleanRunMatches(codec, [], chunks);
        } else {
          LateResetMatches(codec, [], chunks);
        }
      }
    } else {
      var a, b := bytes[..d.value], bytes[d.value..];
      var last: seq<seq<byte>> := [b];
      var chunks := [a] + last;
      assert bytes == a + b && chunks[1..] == last && last[1..] == [];
      assert Flatten(last) == b && Flatten(chunks) == bytes;
      BadHeaderOfPrefix(codec, a, b);
      ResetDropsTheRest(codec, a, b);
      ResetDropsTheRest(codec, a, []);
      assert [] + a == a && [] + b == b;
      var p := Parse(codec, b);
      assert ReadChunks(codec, [], last).events == p.events;
      assert ReadChunks(codec, [], chunks).events == Parse(codec, a).events + p.events;
      assert !SplitsAgree(codec, chunks, bytes);
    }
  }

  // ---------------------------------------------------------------------
  // The round trip
  // ---------------------------------------------------------------------

  datatype Outgoing<V> = Outgoing(msgType: byte, payload: V, format: byte)

  ghost predicate Encodable<V>(codec: Codec<V>, ms: seq<Outgoing<V>>) {
    forall k :: 0 <= k < |ms| ==> Encoded(codec, ms[k].msgType, ms[k].payload, ms[k].format).Frame?
  }

  ghost function WireBytes<V>(codec: Codec<V>, ms: seq<Outgoing<V>>): seq<byte>
    requires Encodable(codec, ms)
  {
    if ms == [] then []
    else
      assert forall k :: 0 <= k < |ms| - 1 ==> ms[1..][k] == ms[k + 1];
      Encoded(codec, ms[0].msgType, ms[0].payload, ms[0].format).bytes + WireBytes(codec, ms[1..])
  }

  function Arrivals<V>(ms: seq<Outgoing<V>>): seq<Event<V>> {
    seq(|ms|, k requires 0 <= k < |ms| => Handled(ms[k].msgType, ms[k].format, Some(ms[k].payload)))
  }

  lemma {:induction false} ParseReadsEncoded<V(!new)>(codec: Codec<V>, ms: seq<Outgoing<V>>)
    requires RoundTrips(codec) && Encodable(codec, ms)
    ensures var p := Parse(codec, WireBytes(codec, ms)); p.events == Arrivals(ms) && p.rest == []
    ensures FirstBadHeader(codec, WireBytes(codec, ms)).None?
  {
    hide NextFrame, Encoded, RoundTrips;
    if ms != [] {
      var m := ms[0];
      var bytes := Encoded(codec, m.msgType, m.payload, m.format).bytes;
      assert Encodable(codec, ms[1..]);
      var tail := WireBytes(codec, ms[1..]);
      NextFrameReadsEncoded(codec, m.msgType, m.payload, m.format, tail);
      assert (bytes + tail)[|bytes|..] == tail;
      ParseReadsEncoded(codec, ms[1..]);
      assert Arrivals(ms) == [Handled(m.msgType, m.format, Some(m.payload))] + Arrivals(ms[1..]);
    } else {
      ShortIsIncomplete(codec, []);
    }
  }

  /** Messages written by EncodeFrame and read back in any chunks arrive whole, in
      order, with their types, formats and payloads, and nothing left over. */
  lemma FramingRoundTrip<V(!new)>(codec: Codec<V>, ms: seq<Outgoing<V>>, chunks: seq<seq<byte>>)
    requires RoundTrips(codec) && Encodable(codec, ms) && Flatten(chunks) == WireBytes(codec, ms)
    ensures var p := ReadChunks(codec, [], chunks); p.events == Arrivals(ms) && p.rest == []
  {
    ParseReadsEncoded(codec, ms);
    ChunkIndependence(codec, WireBytes(codec, ms));
    assert SplitsAgree(codec, chunks, WireBytes(codec, ms));
  }
}
