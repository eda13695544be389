/** The DATA sender and receiver: padding, chain keys and the prepare, authenticate, commit receive path. */
module Data {
  import opened Protocol
  import opened Symbolic
  import opened Ratchet
  import opened Plaintext
  import Framing
  import SessionPayloads

  // ------------------------------------------------------------------ sender

  datatype Sender = Sender(sessionId: SessionId, direction: Direction, chainKey: ChainKey, counter: u64)

  function NewSender(id: SessionId, direction: Direction, chainKey: ChainKey): Sender {
    Sender(id, direction, chainKey, 0)
  }

  function EncryptError(s: Sender, content: seq<byte>): Option<Error> {
    if |content| > MAX_CONTENT then Some(DataTooLarge)
    else if s.counter == U64_MAX then Some(CounterOverflow)
    else None
  }

  /** The frame a sender in this state makes of admissible content. */
  function SealedFrame(s: Sender, content: seq<byte>): Frame
    requires |content| <= MAX_CONTENT
  {
    var (key, _) := DeriveMessageKey(s.chainKey, s.direction);
    Frame(MessageType.Data, DataBody(Envelope(s.sessionId, s.direction, s.counter,
      Sealed(key, s.direction, s.counter, s.sessionId, EncodePlaintext(Pad(content))))))
  }

  /** Framing a sealed envelope fails if its payload is too long for a DATA frame. */
  function EncodePayload(e: Envelope): Result<Frame>
    requires e.ciphertext.Sealed? && SealedLength(e.ciphertext) < U64_LIMIT
  {
    var length := SessionPayloads.EnvelopeLength(e.counter, SealedLength(e.ciphertext));
    if Framing.LengthAllowed(MessageType.Data, length) then Ok(Frame(MessageType.Data, DataBody(e)))
    else Err(InvalidFrameLength(length))
  }

  /** It fails exactly when the byte codec does on any ciphertext of that length. */
  lemma EncodePayloadIsByteCodec(e: Envelope, d: SessionPayloads.DataPayload)
    requires e.ciphertext.Sealed? && SealedLength(e.ciphertext) == |d.ciphertext| < U64_LIMIT
    requires d.counter == e.counter
    ensures EncodePayload(e).Ok? <==> SessionPayloads.EncodeEnvelope(d).Ok?
    ensures EncodePayload(e).Err? ==> EncodePayload(e).error == SessionPayloads.EncodeEnvelope(d).error
  {
    SessionPayloads.EnvelopeSize(d);
  }

  /** Admissible content always fits, so the sender that has already advanced never has to report an error. */
  lemma PaddedContentFits(e: Envelope, content: seq<byte>)
    requires |content| <= MAX_CONTENT && e.ciphertext.Sealed? && e.ciphertext.plaintext == EncodePlaintext(Pad(content))
    ensures SealedLength(e.ciphertext) < U64_LIMIT && EncodePayload(e) == Ok(Frame(MessageType.Data, DataBody(e)))
  {
    PaddedRoundTrip(content);
    var d := SessionPayloads.DataPayload(seq(16, _ => 0), e.direction, e.counter,
        seq(SealedLength(e.ciphertext), _ => 0));
    SessionPayloads.EnvelopeSize(d);
  }

  /**
   * Of the content a sealed frame shows its length in whole quanta only: the ciphertext's length is a multiple
   * of 256, at most 310 bytes more than the content.
   */
  lemma SealedInQuanta(s: Sender, content: seq<byte>)
    requires |content| <= MAX_CONTENT
    ensures var c := SealedFrame(s, content).body.envelope.ciphertext;
            SealedLength(c) % 256 == 0 && |content| < SealedLength(c) <= |content| + 310
  {
    PaddedRoundTrip(content);
    PaddingIsLeast(|content|);
    EncodedPlaintextSize(Pad(content));
  }

  function AfterEncrypt(s: Sender): Sender {
    if s.counter == U64_MAX then s
    else s.(chainKey := DeriveMessageKey(s.chainKey, s.direction).1, counter := s.counter + 1)
  }

  class DataSender {
    const sessionId: SessionId
    const direction: Direction
    var chainKey: ChainKey
    var counter: u64

    function State(): Sender
      reads this
    {
      Sender(sessionId, direction, chainKey, counter)
    }

    constructor (id: SessionId, direction: Direction, chainKey: ChainKey)
      ensures State() == NewSender(id, direction, chainKey)
    {
      this.sessionId, this.direction, this.chainKey, this.counter := id, direction, chainKey, 0;
    }

    /** Encryption fails only on oversized content or an exhausted counter, and then changes nothing. */
    method Encrypt(content: seq<byte>) returns (r: Result<Frame>)
      modifies this
      ensures match EncryptError(old(State()), content)
              case Some(e) => r == Err(e) && State() == old(State())
              case None => r == Ok(SealedFrame(old(State()), content)) && State() == AfterEncrypt(old(State()))
      ensures r.Err? <==> |content| > MAX_CONTENT || old(counter) == U64_MAX
      ensures r.Err? ==> State() == old(State())
    {
      if |content| > MAX_CONTENT {
        return Err(DataTooLarge);
      }
      if counter == U64_MAX {
        return Err(CounterOverflow);
      }
      var used := counter;
      var padded := Padded(content);
      var plaintext := EncodePlaintext(padded.value);
      var (key, next) := DeriveMessageKey(chainKey, direction);
      var ciphertext := Sealed(key, direction, used, sessionId, plaintext);
      chainKey := next;
      counter := used + 1;
      var envelope := Envelope(sessionId, direction, used, ciphertext);
      PaddedContentFits(envelope, content);
      r := EncodePayload(envelope);
    }
  }

  /** Frames that a sender emits for consecutive contents. */
  function EncryptAll(s: Sender, contents: seq<seq<byte>>): seq<Frame>
    decreases |contents|
  {
    if contents == [] then []
    else
      match EncryptError(s, contents[0])
      case Some(_) => EncryptAll(s, contents[1..])
      case None => [SealedFrame(s, contents[0])] + EncryptAll(AfterEncrypt(s), contents[1..])
  }

  /** No two frames of one sender share a nonce, whatever was refused in between. */
  lemma {:induction false} NoncesNeverRepeat(s: Sender, contents: seq<seq<byte>>, k: nat)
    requires k < |EncryptAll(s, contents)|
    ensures var f := EncryptAll(s, contents)[k];
            f.body.DataBody? && f.body.envelope.counter == s.counter + k && f.body.envelope.direction == s.direction
            && f.body.envelope.ciphertext.Sealed?
            && f.body.envelope.ciphertext.counter == s.counter + k
            && (s.chainKey == ChainAt(Origin(s), s.direction, s.counter) ==>
                  f.body.envelope.ciphertext.key == KeyAt(Origin(s), s.direction, s.counter + k))
    decreases |contents|
  {
    if EncryptError(s, contents[0]).Some? {
      NoncesNeverRepeat(s, contents[1..], k);
    } else if k > 0 {
      NoncesNeverRepeat(AfterEncrypt(s), contents[1..], k - 1);
      if s.chainKey == ChainAt(Origin(s), s.direction, s.counter) {
        assert Origin(AfterEncrypt(s)) == Origin(s);
      }
    }
  }

  /** The seed a chain key was advanced from. */
  function Origin(s: Sender): ChainKey {
    SeedOf(s.chainKey)
  }

  function SeedOf(k: ChainKey): ChainKey {
    if k.Seed? then k else SeedOf(k.previous)
  }

  // ------------------------------------------------------------------ receiver

  datatype Receiver = Receiver(sessionId: SessionId, chain: Chain, replay: Window, direction: Direction)

  function NewReceiver(id: SessionId, direction: Direction, chainKey: ChainKey): Receiver {
    Receiver(id, NewChain(chainKey, direction), EmptyWindow(), direction)
  }

  /** The envelope of a frame that concerns this receiver and is not a replay. */
  function Addressed(r: Receiver, f: Frame): Result<Envelope> {
    var e :- DecodeData(f);
    if e.sessionId != r.sessionId || e.direction != r.direction then Err(InvalidDataPayload)
    else if Classify(r.replay, e.counter) != New then Err(ReplayRejected)
    else
      match PrepareError(r.chain, e.counter)
      case Some(error) => Err(error)
      case None => Ok(e)
  }

  /** Authentication and validation under a prepared key. */
  function OpenWith(key: MessageKey, e: Envelope): Result<seq<byte>> {
    var plaintext :- Open(key, e.direction, e.counter, e.sessionId, e.ciphertext);
    var decoded :- DecodePlaintext(plaintext);
    Ok(decoded.content)
  }

  /** Prepare, authenticate and validate, then commit key and counter. */
  function DecryptAddressed(r: Receiver, e: Envelope): (Receiver, Result<seq<byte>>) {
    var chain := Prepared(r.chain, e.counter);
    if e.counter !in chain.skipped then (r.(chain := chain), Err(MessageKeyUnavailable(e.counter)))
    else
      match OpenWith(chain.skipped[e.counter], e)
      case Err(error) => (r.(chain := chain), Err(error))
      case Ok(content) =>
        (r.(chain := Committed(chain, e.counter), replay := Record(r.replay, e.counter)), Ok(content))
  }

  /** What decrypt returns and the state it leaves. */
  function Decrypt(r: Receiver, f: Frame): (Receiver, Result<seq<byte>>) {
    match Addressed(r, f)
    case Err(error) => (r, Err(error))
    case Ok(e) => DecryptAddressed(r, e)
  }

  class DataReceiver {
    const sessionId: SessionId
    const direction: Direction
    const chain: ReceivingChain
    const replay: ReplayWindow

    function State(): Receiver
      reads chain, replay
    {
      Receiver(sessionId, chain.State(), replay.State(), direction)
    }

    constructor (id: SessionId, direction: Direction, chainKey: ChainKey)
      ensures State() == NewReceiver(id, direction, chainKey)
      ensures fresh(chain) && fresh(replay)
    {
      var c := new ReceivingChain(chainKey, direction);
      var w := new ReplayWindow();
      this.sessionId, this.direction, this.chain, this.replay := id, direction, c, w;
    }

    method DecryptFrame(frame: Frame) returns (r: Result<seq<byte>>)
      modifies chain, replay
      ensures (State(), r) == Decrypt(old(State()), frame)
    {
      var envelope := DecodeData(frame);
      if envelope.Err? {
        return Err(envelope.error);
      }
      var e := envelope.value;
      if e.sessionId != sessionId {
        return Err(InvalidDataPayload);
      }
      if e.direction != direction {
        return Err(InvalidDataPayload);
      }
      var status := replay.ClassifyCounter(e.counter);
      if status != New {
        return Err(ReplayRejected);
      }
      ghost var start := State();

      var key := chain.PrepareMessageKey(e.counter);
      if key.Err? {
        return Err(key.error);
      }
      assert chain.State() == Prepared(start.chain, e.counter);
      var plaintext := Open(key.value, e.direction, e.counter, e.sessionId, e.ciphertext);
      if plaintext.Err? {
        return Err(plaintext.error);
      }
      var decoded := DecodePlaintext(plaintext.value);
      if decoded.Err? {
        return Err(decoded.error);
      }
      assert OpenWith(key.value, e) == Ok(decoded.value.content);

      // Neither commit can fail once the plaintext is validated.
      var committed := chain.CommitMessageKey(e.counter);
      if committed.Err? {
        assert false;
      }
      var accepted := replay.Accept(e.counter);
      if accepted.Err? {
        assert false;
      }
      r := Ok(decoded.value.content);
    }
  }

  // ------------------------------------------------------------------ joint receiver invariant

  /** The counters accepted are exactly those below the frontier that are missing from the key cache. */
  ghost predicate ReceiverInv(r: Receiver, seed: ChainKey, accepted: set<u64>) {
    r.chain.direction == r.direction && ChainInv(r.chain, seed, accepted) && Refines(r.replay, accepted)
  }

  lemma NewReceiverInv(id: SessionId, direction: Direction, seed: ChainKey)
    ensures ReceiverInv(NewReceiver(id, direction, seed), seed, {})
  {
  }

  /** The counter a successful decrypt consumed. */
  function CounterOf(f: Frame): Option<u64> {
    match DecodeData(f)
    case Ok(e) => Some(e.counter)
    case Err(_) => None
  }

  /**
   * One call on any frame keeps the joint invariant. Success consumes one counter never accepted before
   * and opens under its own key; failure leaves the accepted set, the replay window and every cached
   * key as they were. The commit steps cannot fail: no other error follows a successful validation.
   */
  lemma DecryptStep(r: Receiver, f: Frame, seed: ChainKey, accepted: set<u64>)
    requires ReceiverInv(r, seed, accepted)
    ensures var (r', result) := Decrypt(r, f);
            r'.sessionId == r.sessionId && r'.direction == r.direction
            && (result.Ok? ==>
                  var c := CounterOf(f);
                  c.Some? && c.value !in accepted && ReceiverInv(r', seed, accepted + {c.value})
                  && result == OpenWith(KeyAt(seed, r.direction, c.value), DecodeData(f).value))
            && (result.Err? ==>
                  ReceiverInv(r', seed, accepted) && r'.replay == r.replay && KeepsKeys(r, r'))
            && (result.Err? && Addressed(r, f).Ok? ==>
                  result == OpenWith(KeyAt(seed, r.direction, CounterOf(f).value), DecodeData(f).value))
  {
    if Addressed(r, f).Ok? {
      DecryptAddressedStep(r, Addressed(r, f).value, seed, accepted);
    }
  }

  /**
   * What a receiver yields was sealed for it: for its session, in its direction, under the chain key of the
   * counter the frame shows, with that counter as nonce, and never yielded before.
   */
  lemma OnlySealedOpens(r: Receiver, f: Frame, seed: ChainKey, accepted: set<u64>)
    requires ReceiverInv(r, seed, accepted) && Decrypt(r, f).1.Ok?
    ensures f.messageType.Data? && f.body.DataBody? && f.body.envelope.sessionId == r.sessionId
        && f.body.envelope.direction == r.direction && f.body.envelope.counter !in accepted
    ensures var c := f.body.envelope.ciphertext;
            c.Sealed? && c.key == KeyAt(seed, r.direction, f.body.envelope.counter)
            && c.direction == r.direction && c.counter == f.body.envelope.counter && c.sessionId == r.sessionId
            && DecodePlaintext(c.plaintext).Ok? && Decrypt(r, f).1 == Ok(DecodePlaintext(c.plaintext).value.content)
  {
    hide Decrypt, ReceiverInv, DecodePlaintext;
    DecryptStep(r, f, seed, accepted);
    AddressedIsOwn(r, f);
  }

  lemma AddressedIsOwn(r: Receiver, f: Frame)
    requires Decrypt(r, f).1.Ok?
    ensures f.messageType.Data? && f.body.DataBody? && f.body.envelope.sessionId == r.sessionId
        && f.body.envelope.direction == r.direction
  {
  }

  lemma DecryptAddressedStep(r: Receiver, e: Envelope, seed: ChainKey, accepted: set<u64>)
    requires ReceiverInv(r, seed, accepted) && e.direction == r.direction
    requires Classify(r.replay, e.counter) == New && PrepareError(r.chain, e.counter).None?
    ensures var (r', result) := DecryptAddressed(r, e);
            r'.sessionId == r.sessionId && r'.direction == r.direction
            && result == OpenWith(KeyAt(seed, r.direction, e.counter), e)
            && e.counter !in accepted
            && (result.Ok? ==> ReceiverInv(r', seed, accepted + {e.counter}))
            && (result.Err? ==> ReceiverInv(r', seed, accepted) && r'.replay == r.replay && KeepsKeys(r, r'))
  {
    PrepareInv(r.chain, e.counter, seed, accepted);
    PreparedKeeps(r.chain, e.counter);
    CommitInv(Prepared(r.chain, e.counter), e.counter, seed, accepted);
    RecordRefines(r.replay, accepted, e.counter);
  }

  /** Every cached key survives. */
  ghost predicate KeepsKeys(r: Receiver, r': Receiver) {
    forall n: u64 :: n in r.chain.skipped ==> n in r'.chain.skipped && r'.chain.skipped[n] == r.chain.skipped[n]
  }

  lemma PreparedKeeps(c: Chain, counter: u64)
    requires forall n: u64 :: n in c.skipped ==> n < c.next
    ensures forall n: u64 :: n in c.skipped ==>
              n in Prepared(c, counter).skipped && Prepared(c, counter).skipped[n] == c.skipped[n]
  {
    if counter !in c.skipped && PrepareError(c, counter).None? {
      DerivedKeeps(c, counter + 1);
    }
  }

  lemma {:induction false} DerivedKeeps(c: Chain, until: u64)
    requires forall n: u64 :: n in c.skipped ==> n < c.next
    ensures forall n: u64 :: n in c.skipped ==>
              n in DeriveUntil(c, until).skipped && DeriveUntil(c, until).skipped[n] == c.skipped[n]
    decreases until - c.next
  {
    if c.next < until {
      DerivedKeeps(DeriveOne(c), until);
    }
  }

  /** Every plaintext a run yields, with its counter. */
  function DecryptAll(r: Receiver, frames: seq<Frame>): seq<(u64, seq<byte>)>
    decreases |frames|
  {
    if frames == [] then []
    else
      var (r', result) := Decrypt(r, frames[0]);
      (if result.Ok? && CounterOf(frames[0]).Some? then [(CounterOf(frames[0]).value, result.value)] else [])
        + DecryptAll(r', frames[1..])
  }

  ghost predicate DistinctCounters(ps: seq<(u64, seq<byte>)>) {
    forall i, j :: 0 <= i < j < |ps| ==> ps[i].0 != ps[j].0
  }

  /** Over any run on any frames, each counter yields plaintext at most once. */
  lemma {:induction false} AtMostOnce(r: Receiver, frames: seq<Frame>, seed: ChainKey, accepted: set<u64>)
    requires ReceiverInv(r, seed, accepted)
    ensures forall p :: p in DecryptAll(r, frames) ==> p.0 !in accepted
    ensures DistinctCounters(DecryptAll(r, frames))
    decreases |frames|
  {
    hide Decrypt, ReceiverInv;
    if frames != [] {
      DecryptStep(r, frames[0], seed, accepted);
      var (r', result) := Decrypt(r, frames[0]);
      if result.Ok? {
        AtMostOnce(r', frames[1..], seed, accepted + {CounterOf(frames[0]).value});
      } else {
        AtMostOnce(r', frames[1..], seed, accepted);
      }
    }
  }

  // ------------------------------------------------------------------ forged traffic

  ghost function Below(n: nat): (r: set<u64>)
    requires n <= U64_LIMIT
    ensures forall i: u64 :: i in r <==> i < n
  {
    if n == 0 then {} else Below(n - 1) + {n - 1}
  }

  /** Everything below `n` was accepted and nothing else. */
  ghost predicate Delivered(r: Receiver, seed: ChainKey, n: nat) {
    n < U64_LIMIT && ReceiverInv(r, seed, Below(n))
  }

  /** The n-th frame of the sender whose chain starts at `seed`. */
  function Genuine(id: SessionId, direction: Direction, seed: ChainKey, n: u64, content: seq<byte>): Frame
    requires |content| <= MAX_CONTENT
  {
    SealedFrame(Sender(id, direction, ChainAt(seed, direction, n), n), content)
  }

  /** Not a validly sealed frame of this session, direction and seed with a counter of at least `n`. */
  ghost predicate Harmless(id: SessionId, direction: Direction, seed: ChainKey, n: nat, f: Frame) {
    match DecodeData(f)
    case Err(_) => true
    case Ok(e) =>
      e.sessionId != id || e.direction != direction || e.counter < n
      || OpenWith(KeyAt(seed, direction, e.counter), e).Err?
  }

  /** A frame for counter `n` that opens to `content`. */
  ghost predicate Opens(id: SessionId, direction: Direction, seed: ChainKey, n: u64, f: Frame, content: seq<byte>) {
    DecodeData(f).Ok? &&
    var e := DecodeData(f).value;
    e.sessionId == id && e.direction == direction && e.counter == n
        && OpenWith(KeyAt(seed, direction, n), e) == Ok(content)
  }

  lemma GenuineOpens(id: SessionId, direction: Direction, seed: ChainKey, n: u64, content: seq<byte>)
    requires |content| <= MAX_CONTENT
    ensures Opens(id, direction, seed, n, Genuine(id, direction, seed, n, content), content)
  {
    PaddedRoundTrip(content);
  }

  /**
   * The counters a receiver still opens: not accepted yet, within the window of the greatest accepted one, and
   * either derived already or at most 64 ahead with no more than 128 keys held afterwards.
   */
  ghost predicate Admits(r: Receiver, accepted: set<u64>, n: u64) {
    Status(accepted, n) == New
    && (n < r.chain.next
        || (n < U64_MAX && n <= r.chain.next + 64 && |r.chain.skipped| + (n + 1 - r.chain.next) <= 128))
  }

  /** In any order: a genuine frame opens to its content exactly if its counter is still admitted. */
  lemma GenuineOpensIff(r: Receiver, seed: ChainKey, accepted: set<u64>, n: u64, content: seq<byte>)
    requires ReceiverInv(r, seed, accepted) && |content| <= MAX_CONTENT
    ensures Decrypt(r, Genuine(r.sessionId, r.direction, seed, n, content)).1
         == if Admits(r, accepted, n) then Ok(content)
            else Err(if Status(accepted, n) != New then ReplayRejected
                     else if n == U64_MAX then CounterOverflow else SkippedKeyLimit)
  {
    hide DecryptAddressed, Prepared;
    var f := Genuine(r.sessionId, r.direction, seed, n, content);
    GenuineOpens(r.sessionId, r.direction, seed, n, content);
    ClassifyRefines(r.replay, accepted, n);
    PreparableIff(r.chain, n, seed, accepted);
    if Addressed(r, f).Ok? {
      DecryptAddressedStep(r, Addressed(r, f).value, seed, accepted);
    }
  }

  /** The delivery point is always cached or the frontier itself. */
  lemma NextIsReady(r: Receiver, seed: ChainKey, n: u64)
    requires Delivered(r, seed, n) && n < U64_MAX
    ensures Classify(r.replay, n) == New && PrepareError(r.chain, n).None?
  {
    ClassifyRefines(r.replay, Below(n), n);
    if n > 0 {
      assert n - 1 in Below(n);
    }
    if n !in r.chain.skipped {
      assert r.chain.next == n;
      assert r.chain.skipped.Keys == {};
      assert |r.chain.skipped| == |r.chain.skipped.Keys|;
    }
  }

  lemma NextAccepted(r: Receiver, seed: ChainKey, n: u64, f: Frame, content: seq<byte>) returns (r': Receiver)
    requires Delivered(r, seed, n) && n < U64_MAX && Opens(r.sessionId, r.direction, seed, n, f, content)
    ensures Decrypt(r, f) == (r', Ok(content)) && CounterOf(f) == Some(n) && Delivered(r', seed, n + 1)
    ensures r'.sessionId == r.sessionId && r'.direction == r.direction
  {
    r' := Decrypt(r, f).0;
    NextIsReady(r, seed, n);
    DecryptStep(r, f, seed, Below(n));
    assert Addressed(r, f) == DecodeData(f);
  }

  lemma HarmlessIgnored(r: Receiver, seed: ChainKey, n: nat, f: Frame) returns (r': Receiver)
    requires Delivered(r, seed, n) && Harmless(r.sessionId, r.direction, seed, n, f)
    ensures Decrypt(r, f).0 == r' && Decrypt(r, f).1.Err? && Delivered(r', seed, n)
    ensures r'.sessionId == r.sessionId && r'.direction == r.direction
  {
    r' := Decrypt(r, f).0;
    DecryptStep(r, f, seed, Below(n));
  }

  lemma DecryptAllAccepted(r: Receiver, frames: seq<Frame>, r': Receiver, n: u64, content: seq<byte>)
    requires frames != [] && Decrypt(r, frames[0]) == (r', Ok(content)) && CounterOf(frames[0]) == Some(n)
    ensures DecryptAll(r, frames) == [(n, content)] + DecryptAll(r', frames[1..])
  {
  }

  lemma DecryptAllIgnored(r: Receiver, frames: seq<Frame>, r': Receiver)
    requires frames != [] && Decrypt(r, frames[0]).0 == r' && Decrypt(r, frames[0]).1.Err?
    ensures DecryptAll(r, frames) == DecryptAll(r', frames[1..])
  {
  }

  /**
   * Frames n, n+1, ... of the sender, carrying `contents` in order, with any number of frames in
   * between that are unreadable, fail authentication or replay what was delivered.
   */
  ghost predicate Interleaving(id: SessionId, direction: Direction, seed: ChainKey, n: nat,
                               contents: seq<seq<byte>>, frames: seq<Frame>)
    decreases |frames|
  {
    if frames == [] then contents == []
    else
      (contents != [] && n < U64_MAX && Opens(id, direction, seed, n, frames[0], contents[0])
         && Interleaving(id, direction, seed, n + 1, contents[1..], frames[1..]))
      || (Harmless(id, direction, seed, n, frames[0]) && Interleaving(id, direction, seed, n, contents, frames[1..]))
  }

  function Numbered(n: nat, contents: seq<seq<byte>>): seq<(u64, seq<byte>)>
    requires n + |contents| <= U64_MAX
    decreases |contents|
  {
    if contents == [] then [] else [(n, contents[0])] + Numbered(n + 1, contents[1..])
  }

  /**
   * Forged traffic cannot stop in-order delivery: however many forgeries arrive in between, every
   * genuine frame decrypts to its content under its counter, and nothing else is delivered.
   */
  lemma {:induction false} ForgeriesCannotBlock(r: Receiver, seed: ChainKey, n: nat, contents: seq<seq<byte>>,
      frames: seq<Frame>)
    requires Delivered(r, seed, n) && n + |contents| <= U64_MAX
    requires Interleaving(r.sessionId, r.direction, seed, n, contents, frames)
    ensures DecryptAll(r, frames) == Numbered(n, contents)
    decreases |frames|
  {
    if frames != [] {
      if NextGenuine(r, seed, n, contents, frames) {
        var r' := NextAccepted(r, seed, n, frames[0], contents[0]);
        ForgeriesCannotBlock(r', seed, n + 1, contents[1..], frames[1..]);
        DecryptAllAccepted(r, frames, r', n, contents[0]);
      } else {
        var r' := HarmlessIgnored(r, seed, n, frames[0]);
        ForgeriesCannotBlock(r', seed, n, contents, frames[1..]);
        DecryptAllIgnored(r, frames, r');
      }
    }
  }

  ghost predicate NextGenuine(r: Receiver, seed: ChainKey, n: nat, contents: seq<seq<byte>>, frames: seq<Frame>)
    requires frames != []
  {
    contents != [] && n < U64_MAX && Opens(r.sessionId, r.direction, seed, n, frames[0], contents[0])
    && Interleaving(r.sessionId, r.direction, seed, n + 1, contents[1..], frames[1..])
  }

  /**
   * A new receiver of the sender's chain: whatever forgeries and replays arrive in between, it delivers the
   * sender's contents from the first on, each under its counter, and nothing else.
   */
  lemma NewReceiverDelivers(id: SessionId, direction: Direction, seed: ChainKey, contents: seq<seq<byte>>,
      frames: seq<Frame>)
    requires |contents| <= U64_MAX && Interleaving(id, direction, seed, 0, contents, frames)
    ensures DecryptAll(NewReceiver(id, direction, seed), frames) == Numbered(0, contents)
  {
    FreshDelivered(id, direction, seed);
    ForgeriesCannotBlock(NewReceiver(id, direction, seed), seed, 0, contents, frames);
  }

  /** A fresh receiver has delivered nothing yet. */
  lemma FreshDelivered(id: SessionId, direction: Direction, seed: ChainKey)
    ensures Delivered(NewReceiver(id, direction, seed), seed, 0)
  {
    assert Below(0) == {};
    NewReceiverInv(id, direction, seed);
  }
}
