/** Outer frames and the incremental decoder that cuts a byte stream into frames. */
module Framing {
  import opened Protocol
  import opened Cbor

  const HEADER_SIZE: nat := 6
  const VERSION: byte := 1

  /** The only protocol version is implied; a frame that exists has it. */
  datatype Frame = Frame(messageType: MessageType, payload: seq<byte>)

  function TypeCode(t: MessageType): byte {
    match t
    case Handshake => 1
    case SessionConfirm => 2
    case Data => 3
    case Rekey => 4
    case Close => 5
  }

  function TypeFromCode(code: byte): Result<MessageType> {
    if code == 1 then Ok(Handshake)
    else if code == 2 then Ok(SessionConfirm)
    else if code == 3 then Ok(Data)
    else if code == 4 then Ok(MessageType.Rekey)
    else if code == 5 then Ok(Close)
    else Err(UnknownMessageType(code as nat))
  }

  predicate LengthAllowed(t: MessageType, length: nat) {
    length <= MaxPayload(t)
  }

  /** Creates a frame after enforcing the payload limit of its type. */
  function NewFrame(t: MessageType, payload: seq<byte>): Result<Frame> {
    if LengthAllowed(t, |payload|) then Ok(Frame(t, payload)) else Err(InvalidFrameLength(|payload|))
  }

  function EncodeFrame(f: Frame): Result<seq<byte>> {
    if LengthAllowed(f.messageType, |f.payload|)
    then Ok([VERSION, TypeCode(f.messageType)] + BigEndian(|f.payload|, 4) + f.payload)
    else Err(InvalidFrameLength(|f.payload|))
  }

  datatype Header = Header(messageType: MessageType, length: nat)

  /** Version, type and per-type length, judged from the header alone. */
  function ParseHeader(header: seq<byte>): Result<Header>
    requires |header| == HEADER_SIZE
  {
    if header[0] != VERSION then Err(UnsupportedVersion(header[0] as nat))
    else
      var t :- TypeFromCode(header[1]);
      var declared := FromBigEndian(header[2..6]);
      if LengthAllowed(t, declared) then Ok(Header(t, declared)) else Err(InvalidFrameLength(declared))
  }

  datatype Decoded = Decoded(frame: Frame, consumed: nat)

  function DecodeFrame(input: seq<byte>): Result<Decoded> {
    if |input| < HEADER_SIZE then Err(TruncatedFrame)
    else
      var h :- ParseHeader(input[..HEADER_SIZE]);
      var total := HEADER_SIZE + h.length;
      if |input| < total then Err(TruncatedFrame)
      else Ok(Decoded(Frame(h.messageType, input[HEADER_SIZE..total]), total))
  }

  /** A frame that can be encoded is recovered from its bytes whatever follows them. */
  lemma DecodeOfEncode(f: Frame, rest: seq<byte>)
    requires EncodeFrame(f).Ok?
    ensures DecodeFrame(EncodeFrame(f).value + rest) == Ok(Decoded(f, |EncodeFrame(f).value|))
  {
    var bytes := EncodeFrame(f).value;
    var input := bytes + rest;
    Powers();
    FromBigEndianOfBigEndian(|f.payload|, 4);
    var length := BigEndian(|f.payload|, 4);
    assert input == [VERSION, TypeCode(f.messageType)] + length + (f.payload + rest);
    assert input[..HEADER_SIZE] == [VERSION, TypeCode(f.messageType)] + length;
    assert ([VERSION, TypeCode(f.messageType)] + length)[2..6] == length;
    assert input[HEADER_SIZE..HEADER_SIZE + |f.payload|] == f.payload;
  }

  /** What DecodeFrame consumed is the encoding of the frame it returned. */
  lemma EncodeOfDecode(input: seq<byte>)
    requires DecodeFrame(input).Ok?
    ensures var d := DecodeFrame(input).value;
            d.consumed <= |input| && EncodeFrame(d.frame) == Ok(input[..d.consumed])
  {
    var d := DecodeFrame(input).value;
    var header := input[..HEADER_SIZE];
    BigEndianOfFromBigEndian(header[2..6]);
    assert d.frame.payload == input[HEADER_SIZE..d.consumed];
    assert header[1] == TypeCode(d.frame.messageType);
    assert header == [header[0], header[1]] + header[2..6];
    assert input[..d.consumed] == header + input[HEADER_SIZE..d.consumed];
  }

  // ------------------------------------------------------------------ incremental decoding

  datatype DecodeError = BadVersion | Malformed

  datatype Pull = NeedMore | Got(frame: Frame, consumed: nat) | Bad(error: DecodeError)

  /** What the front of the buffer allows: a frame, a refusal, or nothing yet. */
  function NextFrame(buffer: seq<byte>): (r: Pull)
    ensures r.Got? ==> HEADER_SIZE <= r.consumed <= |buffer|
    ensures r.NeedMore? ==> |buffer| < HEADER_SIZE + MAX_FRAME_SIZE
  {
    if |buffer| < HEADER_SIZE then NeedMore
    else
      match ParseHeader(buffer[..HEADER_SIZE])
      case Err(UnsupportedVersion(_)) => Bad(BadVersion)
      case Err(_) => Bad(Malformed)
      case Ok(h) =>
        var total := HEADER_SIZE + h.length;
        if |buffer| < total then NeedMore
        else
          match DecodeFrame(buffer[..total])
          case Err(_) => Bad(Malformed)
          case Ok(d) => assert buffer[..total][..HEADER_SIZE] == buffer[..HEADER_SIZE]; Got(d.frame, d.consumed)
  }

  /** Some frame's encoding begins with these bytes and goes on. */
  ghost predicate Begins(buffer: seq<byte>) {
    exists f :: EncodeFrame(f).Ok? && buffer < EncodeFrame(f).value
  }

  /**
   * What a pull says of the bytes that came: a frame is taken exactly from its encoding; with a whole header
   * more is awaited exactly if the bytes begin a longer encoding; and otherwise they are refused, for their
   * version if that is not the one spoken and as malformed if it is.
   */
  lemma PullDecides(buffer: seq<byte>)
    ensures var r := NextFrame(buffer);
            (forall f, n: nat :: r == Got(f, n) <==> n <= |buffer| && EncodeFrame(f) == Ok(buffer[..n]))
            && (r.NeedMore? <==> |buffer| < HEADER_SIZE || Begins(buffer))
            && (r.Bad? ==> |buffer| >= HEADER_SIZE && (r.error.BadVersion? <==> buffer[0] != VERSION))
  {
    if |buffer| >= HEADER_SIZE {
      forall f, n: nat | n <= |buffer| && EncodeFrame(f) == Ok(buffer[..n])
        ensures NextFrame(buffer) == Got(f, n)
      {
        TakenFrame(buffer, f, n);
      }
      if Begins(buffer) {
        var f :| EncodeFrame(f).Ok? && buffer < EncodeFrame(f).value;
        BegunFrame(buffer, f);
      }
      if NextFrame(buffer).Got? {
        GotFrame(buffer);
      } else if NextFrame(buffer).NeedMore? {
        Completed(buffer);
      }
    } else {
      forall f
        ensures EncodeFrame(f).Ok? ==> |EncodeFrame(f).value| >= HEADER_SIZE
      {
        EncodedSize(f);
      }
    }
  }

  lemma EncodedSize(f: Frame)
    ensures EncodeFrame(f).Ok? ==> |EncodeFrame(f).value| == HEADER_SIZE + |f.payload|
  {
  }

  lemma TakenFrame(buffer: seq<byte>, f: Frame, n: nat)
    requires n <= |buffer| && EncodeFrame(f) == Ok(buffer[..n])
    ensures NextFrame(buffer) == Got(f, n)
  {
    DecodeOfEncode(f, buffer[n..]);
    DecodeOfEncode(f, []);
    assert buffer[..n] + buffer[n..] == buffer;
    assert buffer[..n] + [] == buffer[..n];
    assert buffer[..n][..HEADER_SIZE] == buffer[..HEADER_SIZE];
  }

  lemma BegunFrame(buffer: seq<byte>, f: Frame)
    requires HEADER_SIZE <= |buffer| && EncodeFrame(f).Ok? && buffer < EncodeFrame(f).value
    ensures NextFrame(buffer).NeedMore?
  {
    var bytes := EncodeFrame(f).value;
    DecodeOfEncode(f, []);
    assert bytes + [] == bytes;
    assert bytes[..HEADER_SIZE] == buffer[..HEADER_SIZE];
  }

  lemma GotFrame(buffer: seq<byte>)
    requires NextFrame(buffer).Got?
    ensures var r := NextFrame(buffer);
            EncodeFrame(r.frame) == Ok(buffer[..r.consumed])
  {
    var r := NextFrame(buffer);
    var h := ParseHeader(buffer[..HEADER_SIZE]).value;
    EncodeOfDecode(buffer[..HEADER_SIZE + h.length]);
    assert buffer[..HEADER_SIZE + h.length][..r.consumed] == buffer[..r.consumed];
  }

  /** With a good header the missing bytes can still come. */
  lemma Completed(buffer: seq<byte>)
    requires HEADER_SIZE <= |buffer| && NextFrame(buffer).NeedMore?
    ensures Begins(buffer)
  {
    var header := buffer[..HEADER_SIZE];
    var h := ParseHeader(header).value;
    var payload := buffer[HEADER_SIZE..] + seq(HEADER_SIZE + h.length - |buffer|, _ => 0);
    var f := Frame(h.messageType, payload);
    BigEndianOfFromBigEndian(header[2..6]);
    assert header == [header[0], header[1]] + header[2..6];
    assert EncodeFrame(f).value == header + payload;
    assert buffer == header + buffer[HEADER_SIZE..];
    assert buffer == EncodeFrame(f).value[..|buffer|];
  }

  datatype Drained = Drained(frames: seq<Frame>, rest: seq<byte>, error: Option<DecodeError>)

  /** Every frame at the front of the buffer, up to the first refusal. */
  function DrainAll(buffer: seq<byte>): Drained
    decreases |buffer|
  {
    match NextFrame(buffer)
    case NeedMore => Drained([], buffer, None)
    case Bad(e) => Drained([], buffer, Some(e))
    case Got(f, n) => After([f], DrainAll(buffer[n..]))
  }

  /** The outcome `d` with frames taken earlier put in front. */
  function After(earlier: seq<Frame>, d: Drained): Drained {
    Drained(earlier + d.frames, d.rest, d.error)
  }

  lemma AfterTwice(x: seq<Frame>, y: seq<Frame>, d: Drained)
    ensures After(x, After(y, d)) == After(x + y, d)
    ensures After([], d) == d
  {
    assert x + (y + d.frames) == (x + y) + d.frames;
    assert [] + d.frames == d.frames;
  }

  class FrameDecoder {
    var buffer: seq<byte>

    constructor ()
      ensures buffer == []
    {
      buffer := [];
    }

    method Push(data: seq<byte>)
      modifies this
      ensures buffer == old(buffer) + data
    {
      buffer := buffer + data;
    }

    method Next() returns (frame: Option<Frame>, error: Option<DecodeError>)
      modifies this
      ensures match NextFrame(old(buffer))
              case NeedMore => frame == None && error == None && buffer == old(buffer)
              case Bad(e) => frame == None && error == Some(e) && buffer == old(buffer)
              case Got(f, n) => frame == Some(f) && error == None && buffer == old(buffer)[n..]
    {
      if |buffer| < HEADER_SIZE {
        return None, None;
      }
      var header := ParseHeader(buffer[..HEADER_SIZE]);
      if header.Err? {
        return None, Some(if header.error.UnsupportedVersion? then BadVersion else Malformed);
      }
      var total := HEADER_SIZE + header.value.length;
      if |buffer| < total {
        return None, None;
      }
      var decoded := DecodeFrame(buffer[..total]);
      if decoded.Err? {
        return None, Some(Malformed);
      }
      buffer := buffer[decoded.value.consumed..];
      return Some(decoded.value.frame), None;
    }

    /** The loop of the driver: frames are taken until none is complete or one is refused. */
    method Drain() returns (frames: seq<Frame>, error: Option<DecodeError>)
      modifies this
      ensures Drained(frames, buffer, error) == DrainAll(old(buffer))
    {
      frames, error := [], None;
      AfterTwice([], [], DrainAll(buffer));
      while true
        invariant error == None
        invariant DrainAll(old(buffer)) == After(frames, DrainAll(buffer))
        decreases |buffer|
      {
        ghost var before := buffer;
        var frame;
        frame, error := Next();
        if frame.None? {
          assert frames + [] == frames;
          return;
        }
        AfterTwice(frames, [frame.value], DrainAll(buffer));
        frames := frames + [frame.value];
      }
    }
  }

  // ------------------------------------------------------------------ chunk independence

  lemma NextIgnoresTail(x: seq<byte>, y: seq<byte>)
    ensures NextFrame(x).Got? || NextFrame(x).Bad? ==> NextFrame(x + y) == NextFrame(x)
  {
    if |x| >= HEADER_SIZE {
      assert (x + y)[..HEADER_SIZE] == x[..HEADER_SIZE];
      var header := ParseHeader(x[..HEADER_SIZE]);
      if header.Ok? && |x| >= HEADER_SIZE + header.value.length {
        var total := HEADER_SIZE + header.value.length;
        assert (x + y)[..total] == x[..total];
      }
    }
  }

  lemma {:induction false} DrainInTwo(x: seq<byte>, y: seq<byte>)
    ensures var d, whole := DrainAll(x), DrainAll(x + y);
            if d.error.Some? then whole.frames == d.frames && whole.error == d.error
            else whole == After(d.frames, DrainAll(d.rest + y))
    decreases |x|
  {
    NextIgnoresTail(x, y);
    match NextFrame(x)
    case Got(f, n) =>
      assert (x + y)[n..] == x[n..] + y;
      DrainInTwo(x[n..], y);
      var d := DrainAll(x[n..]);
      AfterTwice([f], d.frames, DrainAll(d.rest + y));
    case NeedMore => AfterTwice([], [], DrainAll(x + y));
    case Bad(_) =>
  }

  lemma {:induction false} DrainedIsStable(x: seq<byte>)
    ensures DrainAll(x).error.None? ==> DrainAll(DrainAll(x).rest) == Drained([], DrainAll(x).rest, None)
    ensures DrainAll(x).error.None? ==> |DrainAll(x).rest| < HEADER_SIZE + MAX_FRAME_SIZE
    decreases |x|
  {
    if NextFrame(x).Got? {
      DrainedIsStable(x[NextFrame(x).consumed..]);
    }
  }

  /** One read: the chunk is pushed and the decoder is drained, unless it has already failed. */
  function Feed(d: Drained, chunk: seq<byte>): Drained {
    if d.error.Some? then d
    else After(d.frames, DrainAll(d.rest + chunk))
  }

  function FeedAll(d: Drained, chunks: seq<seq<byte>>): Drained
    decreases |chunks|
  {
    if chunks == [] then d else FeedAll(Feed(d, chunks[0]), chunks[1..])
  }

  function Concat(chunks: seq<seq<byte>>): seq<byte> {
    if chunks == [] then [] else chunks[0] + Concat(chunks[1..])
  }

  lemma {:induction false} FailedStays(d: Drained, chunks: seq<seq<byte>>)
    requires d.error.Some?
    ensures FeedAll(d, chunks) == d
  {
    if chunks != [] {
      FailedStays(d, chunks[1..]);
    }
  }

  lemma {:induction false} FeedAllFrom(d: Drained, chunks: seq<seq<byte>>)
    requires d.error.None? && DrainAll(d.rest) == Drained([], d.rest, None)
    ensures var whole, split := After(d.frames, DrainAll(d.rest + Concat(chunks))), FeedAll(d, chunks);
            split.frames == whole.frames && split.error == whole.error
            && (whole.error.None? ==> split.rest == whole.rest)
    decreases |chunks|
  {
    if chunks == [] {
      assert d.rest + Concat(chunks) == d.rest;
    } else {
      var x, y := d.rest + chunks[0], Concat(chunks[1..]);
      assert d.rest + Concat(chunks) == x + y;
      DrainInTwo(x, y);
      var next, first := Feed(d, chunks[0]), DrainAll(x);
      if next.error.Some? {
        FailedStays(next, chunks[1..]);
      } else {
        DrainedIsStable(x);
        FeedAllFrom(next, chunks[1..]);
        AfterTwice(d.frames, first.frames, DrainAll(next.rest + y));
      }
    }
  }

  /**
   * However a stream is split into reads, draining after each read yields the frames and the first
   * error of decoding the whole stream at once, and what stays buffered is less than one frame.
   */
  lemma ChunkIndependence(chunks: seq<seq<byte>>)
    ensures var whole, split := DrainAll(Concat(chunks)), FeedAll(Drained([], [], None), chunks);
            split.frames == whole.frames && split.error == whole.error
            && (whole.error.None? ==> split.rest == whole.rest && |split.rest| < HEADER_SIZE + MAX_FRAME_SIZE)
  {
    AfterTwice([], [], DrainAll(Concat(chunks)));
    FeedAllFrom(Drained([], [], None), chunks);
    assert [] + Concat(chunks) == Concat(chunks);
    DrainedIsStable(Concat(chunks));
  }

  predicate AllEncodable(fs: seq<Frame>) {
    forall f :: f in fs ==> EncodeFrame(f).Ok?
  }

  function EncodeFrames(fs: seq<Frame>): seq<byte>
    requires AllEncodable(fs)
  {
    if fs == [] then [] else EncodeFrame(fs[0]).value + EncodeFrames(fs[1..])
  }

  /** A stream of encoded frames decodes back to exactly those frames, with nothing left over. */
  lemma {:induction false} StreamRoundTrip(fs: seq<Frame>)
    requires AllEncodable(fs)
    ensures DrainAll(EncodeFrames(fs)) == Drained(fs, [], None)
  {
    if fs != [] {
      var bytes, rest := EncodeFrame(fs[0]).value, EncodeFrames(fs[1..]);
      DecodeOfEncode(fs[0], rest);
      DecodeOfEncode(fs[0], []);
      assert bytes + [] == bytes && (bytes + rest)[..|bytes|] == bytes && (bytes + rest)[|bytes|..] == rest;
      StreamRoundTrip(fs[1..]);
    }
  }
}
