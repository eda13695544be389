/**
 * The symbolic frames stand for byte frames: under any coding of keys, nonces, ids and signatures as bytes of
 * their size, the symbolic decoders accept exactly what the byte decoders accept, and read the same fields.
 */
module Representation {
  import opened Protocol
  import opened Cbor
  import F = Framing
  import P = Payloads
  import L = SessionPayloads
  import S = Symbolic

  /** How the terms look on the wire. */
  datatype Coding = Coding(
    key: S.PublicKey -> P.Bytes32, nonce: S.Nonce -> P.Bytes16, id: S.SessionId -> P.Bytes16,
    commitment: S.Commitment -> P.Bytes32, signature: S.Signature -> P.Bytes64, mac: S.Mac -> P.Bytes32)

  function KeyBytes(n: S.Identity): P.Bytes32 {
    BigEndian(n, 32)
  }

  /** Identities are told apart by their bytes. */
  lemma KeyBytesInjective(a: S.Identity, b: S.Identity)
    requires a < Pow256(32) && b < Pow256(32)
    ensures KeyBytes(a) == KeyBytes(b) <==> a == b
  {
    FromBigEndianOfBigEndian(a, 32);
    FromBigEndianOfBigEndian(b, 32);
  }

  function IdBytes(c: Coding, id: Option<S.SessionId>): Option<P.Bytes16> {
    if id.Some? then Some(c.id(id.value)) else None
  }

  // ------------------------------------------------------------------ HELLO

  function HelloBytes(c: Coding, h: S.HelloPayload): P.HelloPayload
    requires h.cipherSuite < U64_LIMIT
  {
    P.HelloPayload(h.cipherSuite, h.purpose, h.role, KeyBytes(h.identity), c.key(h.ephemeral), c.nonce(h.nonce),
        IdBytes(c, h.previous))
  }

  lemma HelloSlotsInjective(x: P.HelloPayload, y: P.HelloPayload)
    requires P.HelloSlots(x) == P.HelloSlots(y)
    ensures x == y
  {
    var s := P.HelloSlots(x);
    assert s[1].value.n == x.cipherSuite && s[2].value.n == P.PurposeCode(x.purpose);
    assert s[3].value.n == P.RoleCode(x.role) && s[4].value.bytes == x.identity;
    assert s[5].value.bytes == x.ephemeral && s[6].value.bytes == x.nonce;
    assert s[7] == P.BytesSlot(x.previous) == P.BytesSlot(y.previous);
  }

  /** The same HELLO is read, or refused, from the term and from the bytes. */
  lemma HelloRepresents(c: Coding, t: MessageType, h: S.HelloPayload)
    requires h.cipherSuite < U64_LIMIT
    ensures var bytes := F.Frame(t, P.WriteSlots(P.HelloSlots(HelloBytes(c, h))));
            match S.DecodeHello(S.Frame(t, S.HelloBody(h)))
            case Ok(read) => read == h && P.DecodeHello(bytes) == Ok(HelloBytes(c, h))
            case Err(_) => P.DecodeHello(bytes).Err?
  {
    hide P.DecodeHello, P.WriteSlots;
    var own := HelloBytes(c, h);
    var f := F.Frame(t, P.WriteSlots(P.HelloSlots(own)));
    P.HelloCodec(f, own);
    P.SmallPayload(P.HelloSlots(own));
    if P.DecodeHello(f).Ok? {
      var read := P.DecodeHello(f).value;
      P.HelloCodec(f, read);
      P.WriteInjective(P.HelloSlots(own), P.HelloSlots(read));
      HelloSlotsInjective(own, read);
    }
  }

  // ------------------------------------------------------------------ COMMIT

  function CommitBytes(c: Coding, p: S.CommitPayload): P.CommitPayload
    requires p.cipherSuite < U64_LIMIT
  {
    P.CommitPayload(p.cipherSuite, p.purpose, c.commitment(p.commitment), IdBytes(c, p.previous))
  }

  lemma CommitSlotsInjective(x: P.CommitPayload, y: P.CommitPayload)
    requires P.CommitSlots(x) == P.CommitSlots(y)
    ensures x == y
  {
    var s := P.CommitSlots(x);
    assert s[1].value.n == x.cipherSuite && s[2].value.n == P.PurposeCode(x.purpose);
    assert s[3].value.bytes == x.commitment && s[4] == P.BytesSlot(x.previous) == P.BytesSlot(y.previous);
  }

  lemma CommitRepresents(c: Coding, t: MessageType, p: S.CommitPayload)
    requires p.cipherSuite < U64_LIMIT
    ensures var bytes := F.Frame(t, P.WriteSlots(P.CommitSlots(CommitBytes(c, p))));
            match S.DecodeCommit(S.Frame(t, S.CommitBody(p)))
            case Ok(read) => read == p && P.DecodeCommit(bytes) == Ok(CommitBytes(c, p))
            case Err(_) => P.DecodeCommit(bytes).Err?
  {
    hide P.DecodeCommit, P.WriteSlots;
    var own := CommitBytes(c, p);
    var f := F.Frame(t, P.WriteSlots(P.CommitSlots(own)));
    P.CommitCodec(f, own);
    P.SmallPayload(P.CommitSlots(own));
    if P.DecodeCommit(f).Ok? {
      var read := P.DecodeCommit(f).value;
      P.CommitCodec(f, read);
      P.WriteInjective(P.CommitSlots(own), P.CommitSlots(read));
      CommitSlotsInjective(own, read);
    }
  }

  // ------------------------------------------------------------------ AUTH

  function TranscriptBytes(c: Coding, t: S.Transcript): P.Transcript
    requires t.cipherSuite < U64_LIMIT
  {
    P.Transcript(t.purpose, t.cipherSuite, KeyBytes(t.initiatorIdentity), KeyBytes(t.responderIdentity),
                 c.key(t.initiatorEphemeral), c.key(t.responderEphemeral), c.nonce(t.initiatorNonce),
                 c.nonce(t.responderNonce), IdBytes(c, t.previous))
  }

  function AuthBytes(c: Coding, a: S.AuthPayload): P.AuthPayload
    requires a.transcript.cipherSuite < U64_LIMIT
  {
    P.AuthPayload(TranscriptBytes(c, a.transcript), a.stage, c.signature(a.initiatorSignature),
                  if a.responderSignature.Some? then Some(c.signature(a.responderSignature.value)) else None)
  }

  lemma AuthSlotsInjective(x: P.AuthPayload, y: P.AuthPayload)
    requires x.stage < U64_LIMIT && y.stage < U64_LIMIT && P.AuthSlots(x) == P.AuthSlots(y)
    ensures x == y
  {
    var s := P.AuthSlots(x);
    assert s[0].value.n == P.PurposeCode(x.transcript.purpose) && s[1].value.n == x.stage;
    assert s[2].value.n == x.transcript.cipherSuite;
    assert s[3].value.bytes == x.transcript.initiatorIdentity && s[4].value.bytes == x.transcript.responderIdentity;
    assert s[5].value.bytes == x.transcript.initiatorEphemeral && s[6].value.bytes == x.transcript.responderEphemeral;
    assert s[7].value.bytes == x.transcript.initiatorNonce && s[8].value.bytes == x.transcript.responderNonce;
    assert s[9] == P.BytesSlot(x.transcript.previous) == P.BytesSlot(y.transcript.previous);
    assert s[10].value.bytes == x.initiatorSignature;
    assert s[11] == P.BytesSlot(x.responderSignature) == P.BytesSlot(y.responderSignature);
  }

  lemma AuthRepresents(c: Coding, t: MessageType, a: S.AuthPayload)
    requires a.transcript.cipherSuite < U64_LIMIT && a.stage < U64_LIMIT
    ensures var bytes := F.Frame(t, P.WriteSlots(P.AuthSlots(AuthBytes(c, a))));
            match S.DecodeAuth(S.Frame(t, S.AuthBody(a)))
            case Ok(read) => read == a && P.DecodeAuth(bytes) == Ok(AuthBytes(c, a))
            case Err(_) => P.DecodeAuth(bytes).Err?
  {
    hide P.DecodeAuth, P.WriteSlots, P.AuthSlots;
    var own := AuthBytes(c, a);
    AuthWritable(own);
    var f := F.Frame(t, P.WriteSlots(P.AuthSlots(own)));
    P.AuthCodec(f, own);
    if P.DecodeAuth(f).Ok? {
      var read := P.DecodeAuth(f).value;
      P.AuthCodec(f, read);
      AuthWritable(read);
      P.WriteInjective(P.AuthSlots(own), P.AuthSlots(read));
      AuthSlotsInjective(own, read);
    }
  }

  lemma AuthWritable(a: P.AuthPayload)
    requires a.stage < U64_LIMIT
    ensures P.Writable(P.AuthSlots(a)) && |P.AuthSlots(a)| == 12 && |P.WriteSlots(P.AuthSlots(a))| <= 1_024
  {
    P.SmallPayload(P.AuthSlots(a));
  }

  // ------------------------------------------------------------------ SESSION_CONFIRM, CLOSE and DATA

  function ConfirmBytes(c: Coding, p: S.ConfirmPayload): L.ConfirmPayload {
    L.ConfirmPayload(c.id(p.sessionId), p.role, c.mac(p.confirmation))
  }

  lemma ConfirmRepresents(c: Coding, t: MessageType, p: S.ConfirmPayload)
    ensures var bytes := F.Frame(t, P.WriteSlots(L.ConfirmSlots(ConfirmBytes(c, p))));
            match S.DecodeConfirm(S.Frame(t, S.ConfirmBody(p)))
            case Ok(read) => read == p && L.DecodeConfirm(bytes) == Ok(ConfirmBytes(c, p))
            case Err(_) => L.DecodeConfirm(bytes).Err?
  {
    hide P.WriteSlots, P.ReadSlots;
    var own := ConfirmBytes(c, p);
    L.ConfirmCodec(F.Frame(t, P.WriteSlots(L.ConfirmSlots(own))), own);
  }

  function CloseBytes(c: Coding, p: S.ClosePayload, detail: Option<L.Utf8Text>): L.ClosePayload {
    L.ClosePayload(IdBytes(c, p.sessionId), p.reason, detail)
  }

  /** The symbolic CLOSE leaves out the detail, which the engine never looks at. */
  lemma CloseRepresents(c: Coding, t: MessageType, p: S.ClosePayload, detail: Option<L.Utf8Text>)
    requires L.ShortDetail(CloseBytes(c, p, detail))
    ensures var bytes := F.Frame(t, P.WriteSlots(L.CloseSlots(CloseBytes(c, p, detail))));
            match S.DecodeClose(S.Frame(t, S.CloseBody(p)))
            case Ok(read) => read == p && L.DecodeClose(bytes) == Ok(CloseBytes(c, p, detail))
            case Err(_) => L.DecodeClose(bytes).Err?
  {
    hide P.WriteSlots, P.ReadSlots, L.CloseFrom;
    var own := CloseBytes(c, p, detail);
    L.CloseCodec(F.Frame(t, P.WriteSlots(L.CloseSlots(own))), own);
  }

  function EnvelopeBytes(c: Coding, e: S.Envelope, ciphertext: seq<byte>): L.DataPayload {
    L.DataPayload(c.id(e.sessionId), e.direction, e.counter, ciphertext)
  }

  /** A ciphertext long enough to hold a tag, that fits a frame. */
  lemma EnvelopeRepresents(c: Coding, e: S.Envelope, ciphertext: seq<byte>)
    requires AEAD_TAG_SIZE <= |ciphertext| && |ciphertext| + 41 <= MAX_FRAME_SIZE
    ensures S.DecodeData(S.Frame(Data, S.DataBody(e))) == Ok(e)
    ensures L.DecodeEnvelope(P.WriteSlots(L.EnvelopeSlots(EnvelopeBytes(c, e, ciphertext))))
         == Ok(EnvelopeBytes(c, e, ciphertext))
  {
    hide P.WriteSlots, P.ReadSlots;
    var own := EnvelopeBytes(c, e, ciphertext);
    L.EnvelopeSize(own);
    L.EnvelopeCodec(P.WriteSlots(L.EnvelopeSlots(own)), own);
  }
}
