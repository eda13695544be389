/** SESSION_CONFIRM, CLOSE and DATA payloads, the DATA associated data, and what tells payloads apart. */
module SessionPayloads {
  import opened Protocol
  import opened Cbor
  import opened CanonicalMap
  import opened Framing
  import opened Payloads

  const MAX_DETAIL_BYTES: nat := 128

  // ------------------------------------------------------------------ SESSION_CONFIRM

  datatype ConfirmPayload = ConfirmPayload(sessionId: Bytes16, role: Role, confirmation: Bytes32)

  function ConfirmSlots(c: ConfirmPayload): Slots {
    [Some(Bytes(c.sessionId)), Some(UInt(RoleCode(c.role))), Some(Bytes(c.confirmation))]
  }

  function ConfirmFrom(s: Slots): Result<ConfirmPayload>
    requires |s| == 3
  {
    var sessionId :- BytesOf(s[0], 16, ConfirmationInvalid);
    var roleCode :- UIntOf(s[1], ConfirmationInvalid);
    var confirmation :- BytesOf(s[2], 32, ConfirmationInvalid);
    match RoleOf(roleCode)
    case Err(_) => Err(ConfirmationInvalid)
    case Ok(role) => Ok(ConfirmPayload(sessionId, role, confirmation))
  }

  function EncodeConfirm(c: ConfirmPayload): Result<Frame> {
    NewFrame(SessionConfirm, WriteSlots(ConfirmSlots(c)))
  }

  function DecodeConfirm(f: Frame): Result<ConfirmPayload> {
    if f.messageType != SessionConfirm then Err(ConfirmationInvalid)
    else var s :- ReadSlots(f.payload, 3, ConfirmationInvalid); ConfirmFrom(s)
  }

  lemma {:induction false} ThreeSlots(s: Slots)
    requires |s| == 3 && Writable(s)
    ensures |WriteSlots(s)| == 1 + SlotCost(s[0]) + SlotCost(s[1]) + SlotCost(s[2])
  {
    WrittenSize(s);
    assert s[1..][0] == s[1] && s[1..][1..][0] == s[2] && s[1..][1..][1..] == [];
    assert Cost(s[1..][1..]) == SlotCost(s[2]) + Cost([]);
    assert Cost(s[1..]) == SlotCost(s[1]) + Cost(s[1..][1..]);
  }

  ghost function SlotCost(slot: Option<Value>): nat
    requires slot.Some? ==> WritableValue(slot.value)
  {
    if slot.Some? then 1 + |Encode(slot.value)| else 0
  }

  lemma ConfirmCodec(f: Frame, c: ConfirmPayload)
    ensures DecodeConfirm(f) == Ok(c) <==> EncodeConfirm(c) == Ok(f)
    ensures EncodeConfirm(c).Ok?
  {
    var slots := ConfirmSlots(c);
    ThreeSlots(slots);
    ReadIffWritten(f.payload, slots, ConfirmationInvalid);
    var read := ReadSlots(f.payload, 3, ConfirmationInvalid);
    if read.Ok? {
      ConfirmFields(read.value, c);
    }
  }

  lemma ConfirmFields(s: Slots, c: ConfirmPayload)
    requires |s| == 3
    ensures ConfirmFrom(s) == Ok(c) <==> s == ConfirmSlots(c)
  {
  }

  // ------------------------------------------------------------------ CLOSE

  type Utf8Text = t: seq<byte> | IsUtf8(t) witness []

  datatype ClosePayload = ClosePayload(sessionId: Option<Bytes16>, reason: CloseReason, detail: Option<Utf8Text>)

  function ReasonCode(r: CloseReason): u64 {
    match r
    case Normal => 0
    case ProtocolError => 1
    case AuthenticationFailure => 2
    case IdentityChanged => 3
    case ResourceLimit => 4
    case Shutdown => 5
  }

  function ReasonOf(n: u64): (r: Result<CloseReason>)
    ensures r.Ok? ==> ReasonCode(r.value) == n
  {
    if n == 0 then Ok(Normal) else if n == 1 then Ok(ProtocolError) else if n == 2 then Ok(AuthenticationFailure)
    else if n == 3 then Ok(IdentityChanged) else if n == 4 then Ok(ResourceLimit) else if n == 5 then Ok(Shutdown)
    else Err(InvalidClosePayload)
  }

  predicate ShortDetail(c: ClosePayload) {
    c.detail.Some? ==> |c.detail.value| <= MAX_DETAIL_BYTES
  }

  function CloseSlots(c: ClosePayload): Slots {
    [BytesSlot(c.sessionId), Some(UInt(ReasonCode(c.reason))), if c.detail.Some? then Some(Text(c.detail.value))
        else None]
  }

  function CloseFrom(s: Slots): Result<ClosePayload>
    requires |s| == 3 && (s[2].Some? ==> Legible(s[2].value))
  {
    match OptionalBytesOf(s[0], 16)
    case Err(_) => Err(InvalidClosePayload)
    case Ok(sessionId) =>
      var reasonCode :- UIntOf(s[1], InvalidClosePayload);
      var reason :- ReasonOf(reasonCode);
      match s[2]
      case None => Ok(ClosePayload(sessionId, reason, None))
      case Some(Text(t)) =>
        if |t| > MAX_DETAIL_BYTES then Err(InvalidClosePayload) else Ok(ClosePayload(sessionId, reason, Some(t)))
      case _ => Err(InvalidClosePayload)
  }

  function EncodeClose(c: ClosePayload): Result<Frame> {
    if !ShortDetail(c) then Err(InvalidClosePayload) else NewFrame(Close, WriteSlots(CloseSlots(c)))
  }

  function DecodeClose(f: Frame): Result<ClosePayload> {
    if f.messageType != Close then Err(InvalidClosePayload)
    else
      LegibleSlots(f.payload, 3, InvalidClosePayload);
      var s :- ReadSlots(f.payload, 3, InvalidClosePayload);
      CloseFrom(s)
  }

  lemma CloseFields(s: Slots, c: ClosePayload)
    requires |s| == 3 && (s[2].Some? ==> Legible(s[2].value))
    ensures CloseFrom(s) == Ok(c) <==> ShortDetail(c) && s == CloseSlots(c)
  {
  }

  lemma CloseCodec(f: Frame, c: ClosePayload)
    ensures DecodeClose(f) == Ok(c) <==> EncodeClose(c) == Ok(f)
    ensures ShortDetail(c) ==> EncodeClose(c).Ok?
  {
    hide ReadSlots, WriteSlots, Legible;
    LegibleSlots(f.payload, 3, InvalidClosePayload);
    var read := ReadSlots(f.payload, 3, InvalidClosePayload);
    if read.Ok? {
      CloseFields(read.value, c);
    }
    if ShortDetail(c) {
      ThreeSlots(CloseSlots(c));
      ReadIffWritten(f.payload, CloseSlots(c), InvalidClosePayload);
    }
  }

  /** The encoder pushes the reason first and sorts. */
  method CloseEntries(c: ClosePayload) returns (entries: seq<Entry>)
    requires ShortDetail(c)
    ensures entries == Collect(CloseSlots(c), 0)
  {
    entries := [Entry(1, UInt(ReasonCode(c.reason)))];
    entries := entries + OptionalEntry(0, c.sessionId);
    entries := entries + DetailEntry(c.detail);
    CloseInKeyOrder(c);
    ReasonFirst(OptionalEntry(0, c.sessionId), Entry(1, UInt(ReasonCode(c.reason))), DetailEntry(c.detail));
    entries := SortByKey(entries);
    SortedIsUnique(Collect(CloseSlots(c), 0), entries);
  }

  function DetailEntry(detail: Option<Utf8Text>): seq<Entry> {
    if detail.Some? then [Entry(2, Text(detail.value))] else []
  }

  lemma ReasonFirst(id: seq<Entry>, reason: Entry, detail: seq<Entry>)
    ensures multiset([reason] + id + detail) == multiset(id + [reason] + detail)
  {
  }

  lemma CloseInKeyOrder(c: ClosePayload)
    requires ShortDetail(c)
    ensures Increasing(Collect(CloseSlots(c), 0))
    ensures Collect(CloseSlots(c), 0) == OptionalEntry(0, c.sessionId) + [Entry(1, UInt(ReasonCode(c.reason)))]
              + DetailEntry(c.detail)
  {
    var s := CloseSlots(c);
    CollectKeys(s, 0);
    assert s == [s[0]] + [s[1]] + [s[2]];
    CollectAppend([s[0]], [s[1]], 0);
    CollectAppend([s[0]] + [s[1]], [s[2]], 0);
    CollectOne(s[0], 0);
    CollectOne(s[1], 1);
    CollectOne(s[2], 2);
  }

  // ------------------------------------------------------------------ DATA envelope

  datatype DataPayload = DataPayload(sessionId: Bytes16, direction: Direction, counter: u64, ciphertext: seq<byte>)

  function EnvelopeSlots(d: DataPayload): Slots {
    [Some(Bytes(d.sessionId)), Some(UInt(DirectionCode(d.direction))), Some(UInt(d.counter)), Some(Bytes(d.ciphertext))]
  }

  function EnvelopeFrom(s: Slots): Result<DataPayload>
    requires |s| == 4
  {
    var sessionId :- OfSize(s[0], 16, InvalidDataPayload);
    var directionCode :- UIntOf(s[1], InvalidDataPayload);
    var direction :- DirectionOf(directionCode);
    var counter :- UIntOf(s[2], InvalidDataPayload);
    match s[3]
    case Some(Bytes(ciphertext)) =>
      if |ciphertext| < AEAD_TAG_SIZE then Err(InvalidDataPayload)
      else Ok(DataPayload(sessionId, direction, counter, ciphertext))
    case _ => Err(InvalidDataPayload)
  }

  function EncodeEnvelope(d: DataPayload): Result<Frame>
    requires |d.ciphertext| < U64_LIMIT
  {
    NewFrame(Data, WriteSlots(EnvelopeSlots(d)))
  }

  /** A byte string of this size, with one error for everything else. */
  function OfSize(slot: Option<Value>, size: nat, invalid: Error): (r: Result<seq<byte>>)
    ensures r.Ok? ==> |r.value| == size && slot == Some(Bytes(r.value))
  {
    match slot
    case Some(Bytes(b)) => if |b| == size then Ok(b) else Err(invalid)
    case _ => Err(invalid)
  }

  /** Why one field is refused, if it is. */
  function FieldError(key: nat, v: Value): Option<Error> {
    match key
    case 0 => if v.Bytes? && |v.bytes| == 16 then None else Some(InvalidDataPayload)
    case 1 =>
      if !v.UInt? then Some(InvalidDataPayload)
      else if DirectionOf(v.n).Err? then Some(DirectionOf(v.n).error) else None
    case 2 => if v.UInt? then None else Some(InvalidDataPayload)
    case 3 => if v.Bytes? then None else Some(InvalidDataPayload)
    case _ => Some(InvalidDataPayload)
  }

  /** The first field that is refused decides the error. */
  function FirstRefusal(es: seq<Entry>): Option<Error> {
    if es == [] then None
    else if FieldError(es[0].key, es[0].value).Some? then FieldError(es[0].key, es[0].value)
    else FirstRefusal(es[1..])
  }

  function DecodeFields(es: seq<Entry>): Result<DataPayload> {
    if |es| != 4 then Err(InvalidDataPayload)
    else if FirstRefusal(es).Some? then Err(FirstRefusal(es).value)
    else EnvelopeFrom(SlotsOf(es, 0, 4))
  }

  function DecodeEnvelope(payload: seq<byte>): Result<DataPayload> {
    match CanonicalEntries(payload)
    case None => Err(NonCanonicalEncoding)
    case Some(es) => DecodeFields(es)
  }

  lemma {:induction false} NothingRefused(es: seq<Entry>)
    ensures FirstRefusal(es).None? <==> forall e :: e in es ==> FieldError(e.key, e.value).None?
  {
    if es != [] {
      NothingRefused(es[1..]);
      assert es == [es[0]] + es[1..];
    }
  }

  /** An envelope is read exactly if four slots, and only those, hold its fields. */
  lemma FieldsIffSlots(es: seq<Entry>, d: DataPayload)
    requires Increasing(es)
    ensures DecodeFields(es) == Ok(d) <==> KeysBelow(es, 4) && EnvelopeFrom(SlotsOf(es, 0, 4)) == Ok(d)
  {
    hide Increasing, FirstRefusal;
    NothingRefused(es);
    if |es| != 4 {
      FourFilled(es);
    } else if KeysBelow(es, 4) && EnvelopeFrom(SlotsOf(es, 0, 4)) == Ok(d) {
      forall e | e in es
        ensures FieldError(e.key, e.value).None?
      {
        LookupPresent(es, e);
        assert SlotsOf(es, 0, 4)[e.key] == Some(e.value);
      }
    }
  }

  lemma EnvelopeFields(s: Slots, d: DataPayload)
    requires |s| == 4
    ensures EnvelopeFrom(s) == Ok(d) <==> |d.ciphertext| >= AEAD_TAG_SIZE && s == EnvelopeSlots(d)
  {
  }

  lemma EnvelopeCodec(payload: seq<byte>, d: DataPayload)
    requires |d.ciphertext| < U64_LIMIT
    ensures DecodeEnvelope(payload) == Ok(d)
       <==> EncodeEnvelope(d) == Ok(Frame(Data, payload)) && |d.ciphertext| >= AEAD_TAG_SIZE
  {
    hide DecodeFields, WriteSlots, EnvelopeFrom, Increasing;
    var slots := EnvelopeSlots(d);
    ReadIffWritten(payload, slots, InvalidDataPayload);
    if CanonicalEntries(payload).Some? {
      var es := CanonicalEntries(payload).value;
      CanonicalIffEncoding(payload, es);
      FieldsIffSlots(es, d);
      EnvelopeFields(SlotsOf(es, 0, 4), d);
    }
  }

  /** The length of a DATA payload around a ciphertext of `sealed` bytes. */
  function EnvelopeLength(counter: u64, sealed: u64): nat {
    23 + |Head(0, counter)| + |Head(2, sealed)| + sealed
  }

  /** Only the counter and the length of the ciphertext matter; an envelope adds at most 41 bytes. */
  lemma EnvelopeSize(d: DataPayload)
    requires |d.ciphertext| < U64_LIMIT
    ensures |WriteSlots(EnvelopeSlots(d))| == EnvelopeLength(d.counter, |d.ciphertext|) <= |d.ciphertext| + 41
  {
    var s := EnvelopeSlots(d);
    WrittenSize(s);
    var t, u, v := s[1..], s[1..][1..], s[1..][1..][1..];
    assert t[0] == s[1] && u[0] == s[2] && v[0] == s[3] && v[1..] == [];
    assert Cost(v) == SlotCost(s[3]) + Cost([]);
    assert Cost(u) == SlotCost(s[2]) + Cost(v);
    assert Cost(t) == SlotCost(s[1]) + Cost(u);
    assert Cost(s) == SlotCost(s[0]) + Cost(t);
  }

  /** The field loop of the DATA decoder. */
  method DecodeEnvelopeEntries(entries: seq<Entry>) returns (r: Result<DataPayload>)
    requires Increasing(entries)
    ensures r == DecodeFields(entries)
  {
    var slots: Slots := [None, None, None, None];
    if |entries| != 4 {
      return Err(InvalidDataPayload);
    }
    assert entries[0..] == entries;
    for i := 0 to |entries|
      invariant |slots| == 4
      invariant forall k :: 0 <= k < 4 ==> slots[k] == Lookup(entries[..i], k)
      invariant FirstRefusal(entries) == FirstRefusal(entries[i..])
    {
      var e := entries[i];
      LookupAppend(entries, i);
      AbsentBefore(entries, i);
      assert entries[i..][0] == e && entries[i..][1..] == entries[i + 1..];
      var refusal := FieldError(e.key, e.value);
      if refusal.Some? {
        return Err(refusal.value);
      }
      slots := slots[e.key := Some(e.value)];
    }
    assert entries[..|entries|] == entries;
    assert slots == SlotsOf(entries, 0, 4);
    r := EnvelopeFrom(slots);
  }

  lemma {:induction false} LookupPresent(es: seq<Entry>, e: Entry)
    requires Increasing(es) && e in es
    ensures Lookup(es, e.key) == Some(e.value)
  {
    if es[0] != e {
      var i :| 0 < i < |es| && es[i] == e;
      assert es[0].key < es[i].key;
      assert es[1..][i - 1] == e;
      LookupPresent(es[1..], e);
    }
  }

  lemma FourFilled(es: seq<Entry>)
    requires Increasing(es) && |es| != 4
    ensures !(KeysBelow(es, 4) && EnvelopeFrom(SlotsOf(es, 0, 4)).Ok?)
  {
    hide Collect, SlotsOf, Increasing, EnvelopeFrom, InRange;
    if KeysBelow(es, 4) && EnvelopeFrom(SlotsOf(es, 0, 4)).Ok? {
      KeysInRange(es, 4);
      CollectSlotsOf(es, 0, 4);
      FourNeeded(SlotsOf(es, 0, 4));
      CollectFull(SlotsOf(es, 0, 4), 0);
    }
  }

  lemma FourNeeded(s: Slots)
    requires |s| == 4 && EnvelopeFrom(s).Ok?
    ensures forall i :: 0 <= i < 4 ==> s[i].Some?
  {
  }

  lemma {:induction false} CollectFull(slots: Slots, base: nat)
    requires base + |slots| < 24 && forall i :: 0 <= i < |slots| ==> slots[i].Some?
    ensures |Collect(slots, base)| == |slots|
    decreases |slots|
  {
    if slots != [] {
      CollectFull(slots[1..], base + 1);
    }
  }

  // ------------------------------------------------------------------ associated data

  function AadSlots(sessionId: Bytes16, direction: Direction, counter: u64): Slots {
    [Some(UInt(1)), Some(Bytes(sessionId)), Some(UInt(3)), Some(UInt(DirectionCode(direction))), Some(UInt(counter))]
  }

  function DataAad(sessionId: Bytes16, direction: Direction, counter: u64): seq<byte> {
    WriteSlots(AadSlots(sessionId, direction, counter))
  }

  /** The associated data pins session, direction and counter. */
  lemma AadInjective(s: Bytes16, d: Direction, c: u64, s': Bytes16, d': Direction, c': u64)
    ensures DataAad(s, d, c) == DataAad(s', d', c') ==> s == s' && d == d' && c == c'
  {
    var x, y := AadSlots(s, d, c), AadSlots(s', d', c');
    SmallPayload(x);
    WriteInjective(x, y);
    if DataAad(s, d, c) == DataAad(s', d', c') {
      assert x[1].value.bytes == s && y[1].value.bytes == s';
      assert x[3].value.n == DirectionCode(d) && y[3].value.n == DirectionCode(d');
      assert x[4].value.n == c && y[4].value.n == c';
    }
  }

  // ------------------------------------------------------------------ telling payloads apart

  /** A handshake frame is at most one of COMMIT, HELLO and AUTH. */
  lemma HandshakeKindsDisjoint(f: Frame)
    ensures !(DecodeCommit(f).Ok? && DecodeHello(f).Ok?)
    ensures !(DecodeHello(f).Ok? && DecodeAuth(f).Ok?)
    ensures !(DecodeCommit(f).Ok? && DecodeAuth(f).Ok?)
  {
    if CanonicalEntries(f.payload).Some? {
      var es := CanonicalEntries(f.payload).value;
      if DecodeHello(f).Ok? {
        FilledSlot(es, 8, 6);
      }
      if DecodeAuth(f).Ok? {
        FilledSlot(es, 12, 10);
      }
    }
  }

  lemma FilledSlot(es: seq<Entry>, count: nat, key: nat)
    requires key < count
    ensures SlotsOf(es, 0, count)[key].Some? ==> exists e :: e in es && e.key == key
  {
    if forall e :: e in es ==> e.key != key {
      LookupAbsent(es, key);
    }
  }

  // ------------------------------------------------------------------ commit and reveal

  /** The hash of a HELLO payload's bytes, ideal and therefore injective. */
  datatype Commitment = CommitHash(payload: seq<byte>)

  /** What the responder checks of a revealing frame before it looks at the fields. */
  predicate Reveals(commitment: Commitment, f: Frame) {
    DecodeHello(f).Ok? && commitment == CommitHash(f.payload)
  }

  /** A commitment made to `h` is opened by the frame of `h` and by no other. */
  lemma CommitmentOpensToHello(h: HelloPayload, f: Frame)
    requires ValidHello(h)
    ensures EncodeHello(h).Ok?
    ensures Reveals(CommitHash(EncodeHello(h).value.payload), f) <==> f == EncodeHello(h).value
    ensures Reveals(CommitHash(EncodeHello(h).value.payload), f) <==> DecodeHello(f) == Ok(h)
  {
    hide EncodeHello, DecodeHello;
    HelloCodec(f, h);
    var own := EncodeHello(h).value;
    HelloCodec(own, h);
    if Reveals(CommitHash(own.payload), f) {
      RevealFixesHello(CommitHash(own.payload), own, f);
    }
  }

  /** Whatever a peer committed to, it can reveal one HELLO at most, in every field. */
  lemma RevealFixesHello(commitment: Commitment, f: Frame, g: Frame)
    requires Reveals(commitment, f) && Reveals(commitment, g)
    ensures f == g && DecodeHello(f) == DecodeHello(g)
  {
    SameBytesSameHello(f, g);
  }

  lemma SameBytesSameHello(f: Frame, g: Frame)
    requires DecodeHello(f).Ok? && DecodeHello(g).Ok?
    ensures f.payload == g.payload <==> DecodeHello(f) == DecodeHello(g)
    ensures f.payload == g.payload ==> f == g
  {
    HelloCodec(f, DecodeHello(f).value);
    HelloCodec(g, DecodeHello(g).value);
  }
}
