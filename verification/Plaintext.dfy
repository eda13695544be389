/** The DATA plaintext: content, deterministic zero padding, and its map encoding. */
module Plaintext {
  import opened Protocol
  import opened Cbor
  import opened CanonicalMap
  import opened Framing
  import opened Payloads
  import opened SessionPayloads

  datatype DataPlaintext = DataPlaintext(content: seq<byte>, padding: seq<byte>)

  function BstrHeaderLen(length: nat): nat {
    if length <= 23 then 1 else if length <= 255 then 2 else if length <= 65_535 then 3 else 5
  }

  lemma BstrHeaderLenIsHead(length: nat)
    requires length < 0x1_0000_0000
    ensures BstrHeaderLen(length) == |Head(2, length)|
  {
  }

  /** Bytes of the sealed plaintext for this content and padding length. */
  function SealedSize(content: nat, padding: nat): nat {
    3 + BstrHeaderLen(content) + content + BstrHeaderLen(padding) + padding + AEAD_TAG_SIZE
  }

  predicate Aligned(content: nat, padding: nat) {
    SealedSize(content, padding) % PADDING_QUANTUM == 0
  }

  /**
   * The padding in closed form. With `gap` bytes missing to the next multiple, header and padding
   * together must fill it: 25 is skipped by the jump from a one-byte to a two-byte header.
   */
  function PaddingFor(content: nat): (r: nat)
    ensures r <= 278
  {
    var gap := (PADDING_QUANTUM - (3 + BstrHeaderLen(content) + content
        + AEAD_TAG_SIZE) % PADDING_QUANTUM) % PADDING_QUANTUM;
    if gap == 0 then 254 else if gap <= 24 then gap - 1 else if gap == 25 then 278 else gap - 2
  }

  lemma PaddingIsLeast(content: nat)
    ensures Aligned(content, PaddingFor(content))
    ensures forall p :: 0 <= p < PaddingFor(content) ==> !Aligned(content, p)
  {
    var base := 3 + BstrHeaderLen(content) + content + AEAD_TAG_SIZE;
    var gap := (PADDING_QUANTUM - base % PADDING_QUANTUM) % PADDING_QUANTUM;
    assert (base + gap) % PADDING_QUANTUM == 0;
    forall p | 0 <= p <= PaddingFor(content)
      ensures Aligned(content, p) <==> p == PaddingFor(content)
    {
      var filled := BstrHeaderLen(p) + p;
      assert SealedSize(content, p) == base + filled;
      assert 0 <= filled <= 281;
      SameResidue(base, gap, filled);
    }
  }

  lemma SameResidue(base: nat, gap: nat, filled: nat)
    requires (base + gap) % 256 == 0 && gap < 256 && filled <= 281
    ensures (base + filled) % 256 == 0 <==> filled == gap || filled == gap + 256
  {
    var k := (base + gap) / 256;
    assert base + gap == 256 * k;
    if (base + filled) % 256 == 0 {
      var l := (base + filled) / 256;
      assert base + filled == 256 * l;
      assert filled - gap == 256 * (l - k);
      assert l - k <= 1 && l - k >= 0;
    }
  }

  /** No padding exceeds 278 bytes, and content of 210 bytes needs exactly that many. */
  lemma LongestPadding(content: nat)
    ensures PaddingFor(content) <= 278 && PaddingFor(210) == 278
  {
  }

  /** The upward search for the first padding length that lands on the quantum. */
  method Padded(content: seq<byte>) returns (r: Result<DataPlaintext>)
    ensures r == if |content| > MAX_CONTENT then Err(DataTooLarge) else Ok(Pad(content))
  {
    if |content| > MAX_CONTENT {
      return Err(DataTooLarge);
    }
    var fixed := 3 + BstrHeaderLen(|content|) + |content|;
    var length := 0;
    PaddingIsLeast(|content|);
    while true
      invariant 0 <= length <= PaddingFor(|content|)
      decreases PaddingFor(|content|) - length
    {
      var total := fixed + BstrHeaderLen(length) + length + AEAD_TAG_SIZE;
      if total % PADDING_QUANTUM == 0 {
        assert Aligned(|content|, length);
        break;
      }
      assert !Aligned(|content|, length);
      length := length + 1;
      if length > MAX_FRAME_SIZE {
        return Err(DataTooLarge);
      }
    }
    r := Ok(DataPlaintext(content, seq(length, _ => 0 as byte)));
  }

  function Pad(content: seq<byte>): DataPlaintext {
    DataPlaintext(content, seq(PaddingFor(|content|), _ => 0 as byte))
  }

  function PlaintextSlots(p: DataPlaintext): Slots {
    [Some(Bytes(p.content)), Some(Bytes(p.padding))]
  }

  function EncodePlaintext(p: DataPlaintext): seq<byte>
    requires |p.content| < U64_LIMIT && |p.padding| < U64_LIMIT
  {
    WriteSlots(PlaintextSlots(p))
  }

  lemma EncodedPlaintextSize(p: DataPlaintext)
    requires |p.content| < 0x1_0000_0000 && |p.padding| < 0x1_0000_0000
    ensures |EncodePlaintext(p)| + AEAD_TAG_SIZE == SealedSize(|p.content|, |p.padding|)
  {
    var s := PlaintextSlots(p);
    WrittenSize(s);
    var t := s[1..];
    assert t[0] == s[1] && t[1..] == [];
    assert Cost(t) == SlotCost(s[1]) + Cost([]);
    assert Cost(s) == SlotCost(s[0]) + Cost(t);
    BstrHeaderLenIsHead(|p.content|);
    BstrHeaderLenIsHead(|p.padding|);
  }

  predicate AllZero(padding: seq<byte>) {
    forall i :: 0 <= i < |padding| ==> padding[i] == 0
  }

  function PlaintextFrom(s: Slots): Result<DataPlaintext>
    requires |s| == 2
  {
    match s[0]
    case Some(Bytes(content)) =>
      (match s[1]
       case Some(Bytes(padding)) =>
         if |content| > MAX_CONTENT then Err(DataTooLarge)
         else if !AllZero(padding) then Err(InvalidPadding)
         else Ok(DataPlaintext(content, padding))
       case _ => Err(InvalidDataPayload))
    case _ => Err(InvalidDataPayload)
  }

  /** Validates authenticated plaintext bytes. */
  function DecodePlaintext(bytes: seq<byte>): Result<DataPlaintext> {
    var s :- ReadSlots(bytes, 2, InvalidDataPayload);
    PlaintextFrom(s)
  }

  lemma PlaintextCodec(bytes: seq<byte>, p: DataPlaintext)
    requires |p.content| < U64_LIMIT && |p.padding| < U64_LIMIT
    ensures DecodePlaintext(bytes) == Ok(p)
       <==> |bytes| <= MAX_FRAME_SIZE && bytes == EncodePlaintext(p) && |p.content| <= MAX_CONTENT && AllZero(p.padding)
  {
    ReadIffWritten(bytes, PlaintextSlots(p), InvalidDataPayload);
    var read := ReadSlots(bytes, 2, InvalidDataPayload);
    if read.Ok? {
      PlaintextFields(read.value, p);
    }
  }

  lemma PlaintextFields(s: Slots, p: DataPlaintext)
    requires |s| == 2
    ensures PlaintextFrom(s) == Ok(p) <==> |p.content| <= MAX_CONTENT && AllZero(p.padding) && s == PlaintextSlots(p)
  {
  }

  /** What the receiver reads back from what the sender padded. */
  lemma PaddedRoundTrip(content: seq<byte>)
    requires |content| <= MAX_CONTENT
    ensures DecodePlaintext(EncodePlaintext(Pad(content))) == Ok(Pad(content))
    ensures |EncodePlaintext(Pad(content))| + AEAD_TAG_SIZE <= MAX_CONTENT + 512
    ensures (|EncodePlaintext(Pad(content))| + AEAD_TAG_SIZE) % PADDING_QUANTUM == 0
  {
    var p := Pad(content);
    EncodedPlaintextSize(p);
    PaddingIsLeast(|content|);
    PlaintextCodec(EncodePlaintext(p), p);
  }

  /** Once the content is admissible and the AEAD adds only its tag, framing the ciphertext cannot fail. */
  lemma SealedFrameFits(content: seq<byte>, d: DataPayload)
    requires |content| <= MAX_CONTENT
    requires |d.ciphertext| == |EncodePlaintext(Pad(content))| + AEAD_TAG_SIZE
    ensures |d.ciphertext| <= MAX_FRAME_SIZE
    ensures EncodeEnvelope(d).Ok? && DecodeEnvelope(EncodeEnvelope(d).value.payload) == Ok(d)
  {
    PaddedRoundTrip(content);
    EnvelopeSize(d);
    EnvelopeCodec(WriteSlots(EnvelopeSlots(d)), d);
  }
}
