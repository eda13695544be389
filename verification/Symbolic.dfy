/**
 * Ideal cryptography as terms, and the frames that carry them. A hash is the term it hashes, a key is
 * the term it is derived from, and verification succeeds on the matching term only. The byte codecs
 * of Payloads and SessionPayloads are mutually inverse, so a frame is represented by what it decodes to.
 */
module Symbolic {
  import opened Protocol
  import Cbor
  import CanonicalMap

  /** The raw public key, as the big-endian number its 32 bytes spell. */
  type Identity = nat

  /** The draw-th value taken from one entropy source. */
  datatype Secret = Secret(source: nat, draw: nat)
  datatype Nonce = Nonce(source: nat, draw: nat)

  datatype PublicKey = PublicOf(secret: Secret) | LowOrder(code: nat)

  /** X25519 is commutative: the agreed secret is the unordered pair. */
  datatype SharedSecret = Agreed(pair: set<Secret>)

  datatype HelloPayload = HelloPayload(
    cipherSuite: nat, purpose: Purpose, role: Role,
    identity: Identity, ephemeral: PublicKey, nonce: Nonce, previous: Option<SessionId>)

  datatype CommitPayload = CommitPayload(
    cipherSuite: nat, purpose: Purpose, commitment: Commitment, previous: Option<SessionId>)

  datatype Commitment = CommitmentTo(hello: HelloPayload) | OtherCommitment(code: nat)

  datatype Transcript = Transcript(
    purpose: Purpose, cipherSuite: nat,
    initiatorIdentity: Identity, responderIdentity: Identity,
    initiatorEphemeral: PublicKey, responderEphemeral: PublicKey,
    initiatorNonce: Nonce, responderNonce: Nonce, previous: Option<SessionId>)

  /** The transcript hash, injective. */
  datatype Hash = HashOf(transcript: Transcript)

  datatype Signature = SignedBy(signer: Identity, hash: Hash, initiator: bool) | ForgedSignature(code: nat)

  datatype AuthPayload = AuthPayload(
    transcript: Transcript, stage: nat, initiatorSignature: Signature, responderSignature: Option<Signature>)

  /** The key schedule: every derived value is labelled by this pair. */
  datatype SessionKeys = SessionKeys(shared: SharedSecret, hash: Hash)

  datatype SessionId = IdOf(keys: SessionKeys) | ForeignId(code: nat)

  datatype Mac = MacOf(keys: SessionKeys, hash: Hash, initiator: bool) | ForgedMac(code: nat)

  datatype ConfirmPayload = ConfirmPayload(sessionId: SessionId, role: Role, confirmation: Mac)

  datatype ClosePayload = ClosePayload(sessionId: Option<SessionId>, reason: CloseReason)

  /** Directional chain keys. */
  datatype ChainKey = Seed(keys: SessionKeys, direction: Direction) | Advanced(previous: ChainKey, direction: Direction)

  datatype MessageKey = MessageKey(chain: ChainKey, direction: Direction)

  /** The nonce is direction and counter; the associated data adds the session. */
  datatype Ciphertext =
    | Sealed(key: MessageKey, direction: Direction, counter: nat, sessionId: SessionId, plaintext: seq<byte>)
    | Junk(code: nat)

  datatype Envelope = Envelope(sessionId: SessionId, direction: Direction, counter: u64, ciphertext: Ciphertext)

  /** What the payload bytes decode to. */
  datatype Body =
    | CommitBody(commit: CommitPayload)
    | HelloBody(hello: HelloPayload)
    | AuthBody(auth: AuthPayload)
    | ConfirmBody(confirm: ConfirmPayload)
    | CloseBody(close: ClosePayload)
    | DataBody(envelope: Envelope)
    | Unreadable(error: Error)

  datatype Frame = Frame(messageType: MessageType, body: Body)

  // ------------------------------------------------------------------ primitives

  function DiffieHellman(secret: Secret, remote: PublicKey): Result<SharedSecret> {
    match remote
    case PublicOf(other) => Ok(Agreed({secret, other}))
    case LowOrder(_) => Err(AllZeroSharedSecret)
  }

  lemma AgreementCommutes(x: Secret, y: Secret)
    ensures DiffieHellman(x, PublicOf(y)) == DiffieHellman(y, PublicOf(x))
  {
    assert {x, y} == {y, x};
  }

  /** The AEAD adds its tag and nothing else. */
  function SealedLength(c: Ciphertext): nat
    requires c.Sealed?
  {
    |c.plaintext| + AEAD_TAG_SIZE
  }

  function Verify(signer: Identity, hash: Hash, signature: Signature, initiator: bool): Result<()> {
    if signature == SignedBy(signer, hash, initiator) then Ok(()) else Err(SignatureInvalid)
  }

  function DeriveMessageKey(chain: ChainKey, direction: Direction): (MessageKey, ChainKey) {
    (MessageKey(chain, direction), Advanced(chain, direction))
  }

  function Open(key: MessageKey, direction: Direction, counter: nat, id: SessionId, c: Ciphertext): Result<seq<byte>> {
    match c
    case Sealed(k, d, n, s, plaintext) =>
      if k == key && d == direction && n == counter && s == id then Ok(plaintext) else Err(AeadFailure)
    case Junk(_) => Err(AeadFailure)
  }

  /** Rekeys since the initial handshake; a session id contains its predecessor's. */
  function Epoch(id: SessionId): nat {
    match id
    case ForeignId(_) => 0
    case IdOf(keys) =>
      match keys.hash.transcript.previous
      case None => 0
      case Some(previous) => 1 + Epoch(previous)
  }

  /** Comparing identities as numbers is comparing their raw bytes. */
  lemma IdentityOrderIsBytewise(a: Identity, b: Identity)
    requires a < Cbor.Pow256(32) && b < Cbor.Pow256(32)
    ensures a < b <==> CanonicalMap.LexLess(Cbor.BigEndian(a, 32), Cbor.BigEndian(b, 32))
  {
    CanonicalMap.NumberOrderIsBytewise(a, b, 32);
  }

  // ------------------------------------------------------------------ payload checks

  predicate IsHandshakeType(t: MessageType) {
    t.Handshake? || t.Rekey?
  }

  function EncodeHello(h: HelloPayload): Result<Frame> {
    if h.cipherSuite != 1 || !PurposeMatchesPrevious(h.purpose, h.previous.Some?) then Err(InvalidHandshake)
    else Ok(Frame(MessageTypeForPurpose(h.purpose), HelloBody(h)))
  }

  function DecodeHello(f: Frame): Result<HelloPayload> {
    if !IsHandshakeType(f.messageType) then Err(InvalidHandshake)
    else
      match f.body
      case HelloBody(h) => if EncodeHello(h) == Ok(f) then Ok(h) else Err(InvalidHandshake)
      case Unreadable(e) => Err(e)
      case _ => Err(InvalidHandshake)
  }

  function EncodeCommit(c: CommitPayload): Result<Frame> {
    if c.cipherSuite != 1 || !PurposeMatchesPrevious(c.purpose, c.previous.Some?) then Err(InvalidHandshake)
    else Ok(Frame(MessageTypeForPurpose(c.purpose), CommitBody(c)))
  }

  function DecodeCommit(f: Frame): Result<CommitPayload> {
    if !IsHandshakeType(f.messageType) then Err(InvalidHandshake)
    else
      match f.body
      case CommitBody(c) => if EncodeCommit(c) == Ok(f) then Ok(c) else Err(InvalidHandshake)
      case Unreadable(e) => Err(e)
      case _ => Err(InvalidHandshake)
  }

  function EncodeAuth(a: AuthPayload): Result<Frame> {
    if a.transcript.cipherSuite != 1 || a.stage > 1 || (a.stage == 0 && a.responderSignature.Some?)
       || !PurposeMatchesPrevious(a.transcript.purpose, a.transcript.previous.Some?)
    then Err(InvalidHandshake)
    else Ok(Frame(MessageTypeForPurpose(a.transcript.purpose), AuthBody(a)))
  }

  function DecodeAuth(f: Frame): Result<AuthPayload> {
    if !IsHandshakeType(f.messageType) then Err(InvalidHandshake)
    else
      match f.body
      case AuthBody(a) =>
        if EncodeAuth(a) == Ok(f) && (a.stage == 1 ==> a.responderSignature.Some?) then Ok(a) else Err(InvalidHandshake)
      case Unreadable(e) => Err(e)
      case _ => Err(InvalidHandshake)
  }

  function EncodeConfirm(c: ConfirmPayload): Frame {
    Frame(SessionConfirm, ConfirmBody(c))
  }

  function DecodeConfirm(f: Frame): Result<ConfirmPayload> {
    if f.messageType != SessionConfirm then Err(ConfirmationInvalid)
    else
      match f.body
      case ConfirmBody(c) => Ok(c)
      case Unreadable(e) => Err(e)
      case _ => Err(ConfirmationInvalid)
  }

  function EncodeClose(c: ClosePayload): Frame {
    Frame(Close, CloseBody(c))
  }

  function DecodeClose(f: Frame): Result<ClosePayload> {
    if f.messageType != Close then Err(InvalidClosePayload)
    else
      match f.body
      case CloseBody(c) => Ok(c)
      case Unreadable(e) => Err(e)
      case _ => Err(InvalidClosePayload)
  }

  function DecodeData(f: Frame): Result<Envelope> {
    if f.messageType != Data then Err(InvalidDataPayload)
    else
      match f.body
      case DataBody(e) => Ok(e)
      case Unreadable(e) => Err(e)
      case _ => Err(InvalidDataPayload)
  }

  // ------------------------------------------------------------------ handshake composition

  function TranscriptFromHellos(initiator: HelloPayload, responder: HelloPayload): Result<Transcript> {
    if initiator.role != Initiator || responder.role != Responder
       || initiator.cipherSuite != responder.cipherSuite || initiator.purpose != responder.purpose
       || initiator.previous != responder.previous
    then Err(InvalidHandshake)
    else Ok(Transcript(initiator.purpose, initiator.cipherSuite, initiator.identity, responder.identity,
                       initiator.ephemeral, responder.ephemeral, initiator.nonce, responder.nonce, initiator.previous))
  }

  /** Checks the signatures over the local transcript and derives the session keys. */
  function VerifyHandshake(auth: AuthPayload, local: Transcript, shared: SharedSecret): Result<SessionKeys> {
    if auth.transcript != local then Err(InvalidHandshake)
    else
      var hash := HashOf(local);
      var _ :- Verify(auth.transcript.initiatorIdentity, hash, auth.initiatorSignature, true);
      match auth.responderSignature
      case Some(signature) =>
        var _ :- Verify(auth.transcript.responderIdentity, hash, signature, false);
        Ok(SessionKeys(shared, hash))
      case None => if auth.stage != 0 then Err(InvalidHandshake) else Ok(SessionKeys(shared, hash))
  }

  function VerifyConfirm(c: ConfirmPayload, keys: SessionKeys, hash: Hash, expected: Role): Result<()> {
    if c.role != expected || c.sessionId != IdOf(keys) || c.confirmation != MacOf(keys, hash, c.role.Initiator?)
    then Err(ConfirmationInvalid)
    else Ok(())
  }

  /** The greater raw key stays initiator. */
  predicate LocalIdentityWinsGlare(local: Identity, remote: Identity) {
    local > remote
  }
}
