/** Registries, bounds and error values shared by every layer of RUXMSG/1. */
module Protocol {

  newtype byte = x: int | 0 <= x < 256

  const U64_LIMIT: nat := 0x1_0000_0000_0000_0000
  type u64 = x: int | 0 <= x < U64_LIMIT
  const U64_MAX: u64 := U64_LIMIT - 1

  const MAX_FRAME_SIZE: nat := 1_048_576
  const REPLAY_WINDOW_SIZE: nat := 64
  const MAX_SKIPPED_KEYS: nat := 64
  const MAX_PREPARED_KEYS: nat := 128
  const PADDING_QUANTUM: nat := 256
  const MAX_CONTENT: nat := 65_536
  const AEAD_TAG_SIZE: nat := 16

  const HANDSHAKE_FRAME_TIMEOUT_SECS: nat := 15
  const SAS_DECISION_TIMEOUT_SECS: nat := 120
  const HANDSHAKE_TOTAL_TIMEOUT_SECS: nat := 180
  const REKEY_DRAIN_TIMEOUT_SECS: nat := 15
  const REKEY_INTERVAL_SECS: nat := 86_400
  const REKEY_RETRY_SECS: nat := 30
  const REKEY_MESSAGE_LIMIT: nat := 1_000_000

  datatype Option<+T> = None | Some(value: T)

  datatype Result<+T> = Ok(value: T) | Err(error: Error) {
    predicate IsFailure() { Err? }
    function PropagateFailure<U>(): Result<U> requires Err? { Err(error) }
    function Extract(): T requires Ok? { value }
  }

  datatype Error =
    | UnsupportedVersion(version: nat)
    | UnknownMessageType(code: nat)
    | InvalidFrameLength(length: nat)
    | InvalidDirection(direction: nat)
    | InvalidLength
    | AllZeroSharedSecret
    | SignatureInvalid
    | ConfirmationInvalid
    | AeadFailure
    | TruncatedFrame
    | InvalidPayloadShape
    | InvalidMapKey
    | DuplicateMapKey(key: nat)
    | NonCanonicalEncoding
    | NotText
    | ReplayRejected
    | MessageKeyUnavailable(counter: nat)
    | SkippedKeyLimit
    | CounterOverflow
    | InvalidStateTransition
    | TransportTimeout
    | InvalidDataPayload
    | InvalidPadding
    | DataTooLarge
    | InvalidHandshake
    | SasRejected
    | InvalidClosePayload
    | IdentityMismatch

  datatype MessageType = Handshake | SessionConfirm | Data | Rekey | Close

  /** Largest payload a frame of this type may carry. */
  function MaxPayload(t: MessageType): nat {
    match t
    case Handshake => 1_024
    case Rekey => 1_024
    case SessionConfirm => 128
    case Close => 256
    case Data => MAX_FRAME_SIZE
  }

  datatype Purpose = Initial | Rekey

  datatype Role = Initiator | Responder

  datatype Direction = InitiatorToResponder | ResponderToInitiator

  datatype CloseReason = Normal | ProtocolError | AuthenticationFailure | IdentityChanged | ResourceLimit | Shutdown

  /** The wire type carrying the COMMIT, HELLO and AUTH frames of a handshake. */
  function MessageTypeForPurpose(p: Purpose): MessageType {
    if p.Initial? then Handshake else MessageType.Rekey
  }

  /** A rekey names its predecessor and an initial handshake has none. */
  predicate PurposeMatchesPrevious(p: Purpose, hasPrevious: bool) {
    p.Initial? <==> !hasPrevious
  }
}
