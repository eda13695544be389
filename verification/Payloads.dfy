/**
 * Byte-level payload codecs. Every payload is a deterministic map whose keys are small slot numbers,
 * so a payload is described by its slots: the value under each key, or nothing.
 */
module Payloads {
  import opened Protocol
  import opened Cbor
  import opened CanonicalMap
  import opened Framing

  type Bytes16 = s: seq<byte> | |s| == 16 witness seq(16, _ => 0 as byte)
  type Bytes32 = s: seq<byte> | |s| == 32 witness seq(32, _ => 0 as byte)
  type Bytes64 = s: seq<byte> | |s| == 64 witness seq(64, _ => 0 as byte)

  type Slots = seq<Option<Value>>

  // ------------------------------------------------------------------ slots

  /** The entries of the filled slots, in key order. */
  function Collect(slots: Slots, base: nat): seq<Entry>
    requires base + |slots| < 24
  {
    if slots == [] then []
    else (if slots[0].Some? then [Entry(base, slots[0].value)] else []) + Collect(slots[1..], base + 1)
  }

  function Lookup(es: seq<Entry>, key: nat): Option<Value> {
    if es == [] then None
    else if es[0].key == key then Some(es[0].value)
    else Lookup(es[1..], key)
  }

  function SlotsOf(es: seq<Entry>, base: nat, count: nat): (r: Slots)
    ensures |r| == count
  {
    seq(count, i requires 0 <= i < count => Lookup(es, base + i))
  }

  predicate KeysBelow(es: seq<Entry>, count: nat) {
    forall e :: e in es ==> e.key < count
  }

  lemma {:induction false} CollectKeys(slots: Slots, base: nat)
    requires base + |slots| < 24
    ensures Increasing(Collect(slots, base)) && |Collect(slots, base)| <= |slots|
    ensures forall e :: e in Collect(slots, base) ==> base <= e.key < base + |slots|
  {
    if slots != [] {
      CollectKeys(slots[1..], base + 1);
    }
  }

  lemma {:induction false} LookupAbsent(es: seq<Entry>, key: nat)
    requires forall e :: e in es ==> e.key != key
    ensures Lookup(es, key) == None
  {
    if es != [] {
      LookupAbsent(es[1..], key);
    }
  }

  lemma LookupTail(es: seq<Entry>, key: nat)
    requires es != [] && es[0].key != key
    ensures Lookup(es, key) == Lookup(es[1..], key)
  {
  }

  /** What the first slot contributes. */
  lemma CollectStep(slots: Slots, base: nat)
    requires base + |slots| < 24 && slots != []
    ensures slots[0].None? ==> Collect(slots, base) == Collect(slots[1..], base + 1)
    ensures slots[0].Some? ==>
              var es := Collect(slots, base);
              es != [] && es[0] == Entry(base, slots[0].value) && es[1..] == Collect(slots[1..], base + 1)
              && es == [es[0]] + es[1..]
  {
  }

  lemma {:induction false} SlotsOfCollect(slots: Slots, base: nat, i: nat)
    requires base + |slots| < 24 && i < |slots|
    ensures Lookup(Collect(slots, base), base + i) == slots[i]
  {
    hide Collect, Increasing;
    CollectStep(slots, base);
    if i == 0 {
      if slots[0].None? {
        CollectKeys(slots[1..], base + 1);
        LookupAbsent(Collect(slots[1..], base + 1), base);
      }
    } else {
      SlotsOfCollect(slots[1..], base + 1, i - 1);
      if slots[0].Some? {
        LookupTail(Collect(slots, base), base + i);
      }
    }
  }

  /** Strictly increasing keys between `base` and `limit`, in a form that recursion follows. */
  predicate InRange(es: seq<Entry>, base: nat, limit: nat) {
    es == [] || (base <= es[0].key < limit && InRange(es[1..], es[0].key + 1, limit))
  }

  lemma {:induction false} IncreasingInRange(es: seq<Entry>, base: nat, limit: nat)
    requires Increasing(es) && forall i :: 0 <= i < |es| ==> base <= es[i].key < limit
    ensures InRange(es, base, limit)
  {
    if es != [] {
      forall i | 0 <= i < |es| - 1 ensures es[0].key + 1 <= es[1..][i].key < limit {
        assert es[0].key < es[i + 1].key;
      }
      IncreasingInRange(es[1..], es[0].key + 1, limit);
    }
  }

  lemma KeysInRange(es: seq<Entry>, count: nat)
    requires Increasing(es) && KeysBelow(es, count)
    ensures InRange(es, 0, count)
  {
    assert forall i :: 0 <= i < |es| ==> es[i] in es;
    IncreasingInRange(es, 0, count);
  }

  lemma {:induction false} LookupBelow(es: seq<Entry>, base: nat, limit: nat, key: nat)
    requires InRange(es, base, limit) && key < base
    ensures Lookup(es, key) == None
  {
    if es != [] {
      LookupBelow(es[1..], es[0].key + 1, limit, key);
    }
  }

  lemma RestSlots(es: seq<Entry>, base: nat, count: nat)
    requires count > 0
    ensures SlotsOf(es, base, count)[0] == Lookup(es, base)
    ensures SlotsOf(es, base, count)[1..] == SlotsOf(es, base + 1, count - 1)
  {
  }

  lemma TailSlots(es: seq<Entry>, base: nat, count: nat)
    requires es != [] && es[0].key < base
    ensures SlotsOf(es, base, count) == SlotsOf(es[1..], base, count)
  {
    var x, y := SlotsOf(es, base, count), SlotsOf(es[1..], base, count);
    forall i | 0 <= i < count ensures x[i] == y[i] {
      LookupTail(es, base + i);
    }
  }

  /** Entries with increasing keys are recovered from the slots they fill. */
  lemma {:induction false} CollectSlotsOf(es: seq<Entry>, base: nat, count: nat)
    requires base + count < 24 && InRange(es, base, base + count)
    ensures Collect(SlotsOf(es, base, count), base) == es
    decreases count
  {
    hide Collect, SlotsOf;
    if count == 0 {
      NothingCollected(base);
    } else {
      CollectStep(SlotsOf(es, base, count), base);
      RestSlots(es, base, count);
      if es != [] && es[0].key == base {
        TailSlots(es, base + 1, count - 1);
        CollectSlotsOf(es[1..], base + 1, count - 1);
        assert es == [es[0]] + es[1..];
      } else {
        assert InRange(es, base + 1, base + count);
        LookupBelow(es, base + 1, base + count, base);
        CollectSlotsOf(es, base + 1, count - 1);
      }
    }
  }

  lemma NothingCollected(base: nat)
    requires base < 24
    ensures Collect([], base) == []
  {
  }

  // ------------------------------------------------------------------ writing and reading slots

  /** Payload fields are unsigned integers and strings, never containers. */
  predicate Writable(slots: Slots) {
    |slots| < 24 && forall i :: 0 <= i < |slots| ==> slots[i].Some? ==> WritableValue(slots[i].value)
  }

  predicate WritableValue(v: Value) {
    match v
    case UInt(_) => true
    case Bytes(b) => |b| < U64_LIMIT
    case Text(t) => |t| < U64_LIMIT && IsUtf8(t)
    case _ => false
  }

  lemma {:induction false} CollectWritable(slots: Slots, base: nat)
    requires base + |slots| < 24 && Writable(slots)
    ensures forall e :: e in Collect(slots, base) ==> Admissible(e.value)
  {
    hide IsUtf8, AllSized, AllFit, AllLegible;
    if slots != [] {
      CollectWritable(slots[1..], base + 1);
    }
  }

  function WriteSlots(slots: Slots): seq<byte>
    requires Writable(slots)
  {
    CollectKeys(slots, 0);
    CollectWritable(slots, 0);
    EncodeMap(Collect(slots, 0))
  }

  function ReadSlots(payload: seq<byte>, count: nat, invalid: Error): (r: Result<Slots>)
    ensures r.Ok? ==> |r.value| == count
  {
    match CanonicalEntries(payload)
    case None => Err(NonCanonicalEncoding)
    case Some(es) => if KeysBelow(es, count) then Ok(SlotsOf(es, 0, count)) else Err(invalid)
  }

  /** Reading slots and writing slots are mutually inverse. */
  lemma ReadIffWritten(payload: seq<byte>, slots: Slots, invalid: Error)
    requires Writable(slots)
    ensures ReadSlots(payload, |slots|, invalid) == Ok(slots)
       <==> |payload| <= MAX_FRAME_SIZE && payload == WriteSlots(slots)
  {
    var written := Collect(slots, 0);
    CollectKeys(slots, 0);
    CollectWritable(slots, 0);
    forall i | 0 <= i < |slots| ensures Lookup(written, i) == slots[i] {
      SlotsOfCollect(slots, 0, i);
    }
    assert SlotsOf(written, 0, |slots|) == slots;
    CanonicalIffEncoding(payload, written);
    if ReadSlots(payload, |slots|, invalid) == Ok(slots) {
      var es := CanonicalEntries(payload).value;
      CanonicalIffEncoding(payload, es);
      KeysInRange(es, |slots|);
      CollectSlotsOf(es, 0, |slots|);
    }
  }

  /** What is read is legible: every text field is UTF-8. */
  lemma LegibleSlots(payload: seq<byte>, count: nat, invalid: Error)
    ensures var r := ReadSlots(payload, count, invalid);
            r.Ok? ==> forall i :: 0 <= i < count && r.value[i].Some? ==> Legible(r.value[i].value)
  {
    hide Legible;
    var r := ReadSlots(payload, count, invalid);
    if r.Ok? {
      var es := CanonicalEntries(payload).value;
      CanonicalIffEncoding(payload, es);
      forall i | 0 <= i < count && r.value[i].Some?
        ensures Legible(r.value[i].value)
      {
        LookupIn(es, i);
      }
    }
  }

  lemma {:induction false} LookupIn(es: seq<Entry>, key: nat)
    ensures Lookup(es, key).Some? ==> exists e :: e in es && Lookup(es, key) == Some(e.value)
  {
    if es != [] {
      LookupIn(es[1..], key);
      assert es[0] in es && forall e :: e in es[1..] ==> e in es;
    }
  }

  lemma WriteInjective(x: Slots, y: Slots)
    requires Writable(x) && Writable(y) && |x| == |y| && |WriteSlots(x)| <= MAX_FRAME_SIZE
    ensures WriteSlots(x) == WriteSlots(y) ==> x == y
  {
    ReadIffWritten(WriteSlots(x), x, InvalidHandshake);
    ReadIffWritten(WriteSlots(x), y, InvalidHandshake);
  }

  // ------------------------------------------------------------------ size of a written payload

  /** Encoded bytes of the filled slots, one key byte each included. */
  ghost function Cost(slots: Slots): nat
    requires Writable(slots)
  {
    if slots == [] then 0
    else (if slots[0].Some? then 1 + |Encode(slots[0].value)| else 0) + Cost(slots[1..])
  }

  lemma {:induction false} CollectedSize(slots: Slots, base: nat)
    requires base + |slots| < 24 && Writable(slots)
    ensures AllSized(Flatten(Collect(slots, base))) && AllFit(Flatten(Collect(slots, base)), MAX_ROOM - 1)
    ensures |EncodeAll(Flatten(Collect(slots, base)))| == Cost(slots)
  {
    if slots != [] {
      CollectedSize(slots[1..], base + 1);
      var es, rest := Collect(slots, base), Collect(slots[1..], base + 1);
      if slots[0].Some? {
        var v := slots[0].value;
        assert es[1..] == rest;
        assert Flatten(es) == [UInt(base)] + ([v] + Flatten(rest));
        EncodeAllCons(v, Flatten(rest), MAX_ROOM - 1);
        EncodeAllCons(UInt(base), [v] + Flatten(rest), MAX_ROOM - 1);
        assert |Encode(UInt(base))| == 1;
      } else {
        assert es == rest;
      }
    }
  }

  lemma WrittenSize(slots: Slots)
    requires Writable(slots)
    ensures |WriteSlots(slots)| == 1 + Cost(slots)
  {
    CollectKeys(slots, 0);
    CollectedSize(slots, 0);
    assert |Head(5, |Collect(slots, 0)|)| == 1;
  }

  lemma {:induction false} CostBound(slots: Slots)
    requires Writable(slots)
    requires forall i :: 0 <= i < |slots| ==> slots[i].Some? ==> |Encode(slots[i].value)| <= 66
    ensures Cost(slots) <= 67 * |slots|
  {
    if slots != [] {
      CostBound(slots[1..]);
    }
  }

  /** Integers take at most 9 bytes and strings of at most 64 bytes at most 66. */
  lemma SmallPayload(slots: Slots)
    requires Writable(slots) && |slots| <= 12
    requires forall i :: 0 <= i < |slots| ==> slots[i].Some? ==>
               slots[i].value.UInt? || (slots[i].value.Bytes? && |slots[i].value.bytes| <= 64)
    ensures |WriteSlots(slots)| <= 1_024
  {
    WrittenSize(slots);
    CostBound(slots);
  }

  // ------------------------------------------------------------------ the field vector

  /** Writes the entries of a decoded map into their slots. */
  method MapIntoFields(entries: seq<Entry>, count: nat, invalid: Error) returns (r: Result<Slots>)
    requires Increasing(entries)
    ensures r == if KeysBelow(entries, count) then Ok(SlotsOf(entries, 0, count)) else Err(invalid)
  {
    var fields: Slots := seq(count, _ => None);
    for i := 0 to |entries|
      invariant |fields| == count
      invariant KeysBelow(entries[..i], count)
      invariant forall k :: 0 <= k < count ==> fields[k] == Lookup(entries[..i], k)
    {
      var e := entries[i];
      assert e in entries;
      LookupAppend(entries, i);
      if e.key >= count {
        return Err(invalid);
      }
      AbsentBefore(entries, i);
      if fields[e.key].Some? {
        return Err(invalid);
      }
      fields := fields[e.key := Some(e.value)];
      assert entries[..i + 1] == entries[..i] + [e];
    }
    assert entries[..|entries|] == entries;
    assert fields == SlotsOf(entries, 0, count);
    r := Ok(fields);
  }

  lemma AbsentBefore(es: seq<Entry>, i: nat)
    requires Increasing(es) && i < |es|
    ensures Lookup(es[..i], es[i].key) == None
  {
    forall e | e in es[..i] ensures e.key != es[i].key {
      var k :| 0 <= k < i && es[k] == e;
    }
    LookupAbsent(es[..i], es[i].key);
  }

  lemma {:induction false} LookupAppend(es: seq<Entry>, i: nat)
    requires i < |es|
    ensures forall k: nat :: Lookup(es[..i + 1], k) == (
              if Lookup(es[..i], k).Some? then Lookup(es[..i], k)
              else if es[i].key == k then Some(es[i].value) else None)
  {
    if i > 0 {
      LookupAppend(es[1..], i - 1);
      assert es[..i + 1][1..] == es[1..][..i];
      assert es[..i][1..] == es[1..][..i - 1];
    } else {
      assert es[..1][1..] == [];
    }
  }

  function UIntOf(slot: Option<Value>, invalid: Error): Result<u64> {
    match slot
    case Some(UInt(n)) => Ok(n)
    case _ => Err(invalid)
  }

  function BytesOf(slot: Option<Value>, size: nat, missing: Error): (r: Result<seq<byte>>)
    ensures r.Ok? ==> |r.value| == size && slot == Some(Bytes(r.value))
  {
    match slot
    case None => Err(missing)
    case Some(Bytes(b)) => if |b| == size then Ok(b) else Err(InvalidLength)
    case _ => Err(InvalidLength)
  }

  function OptionalBytesOf(slot: Option<Value>, size: nat): (r: Result<Option<seq<byte>>>)
    ensures r.Ok? ==> (r.value.Some? ==> |r.value.value| == size) && slot == BytesSlot(r.value)
  {
    if slot.None? then Ok(None) else var b :- BytesOf(slot, size, InvalidLength); Ok(Some(b))
  }

  function BytesSlot(b: Option<seq<byte>>): Option<Value> {
    if b.Some? then Some(Bytes(b.value)) else None
  }

  function PurposeCode(p: Purpose): u64 {
    if p.Initial? then 0 else 1
  }

  function PurposeOf(n: u64): (r: Result<Purpose>)
    ensures r.Ok? ==> PurposeCode(r.value) == n
  {
    if n == 0 then Ok(Initial) else if n == 1 then Ok(Purpose.Rekey) else Err(InvalidHandshake)
  }

  function RoleCode(r: Role): u64 {
    if r.Initiator? then 0 else 1
  }

  function RoleOf(n: u64): (r: Result<Role>)
    ensures r.Ok? ==> RoleCode(r.value) == n
  {
    if n == 0 then Ok(Initiator) else if n == 1 then Ok(Responder) else Err(InvalidHandshake)
  }

  function DirectionCode(d: Direction): u64 {
    if d.InitiatorToResponder? then 1 else 2
  }

  function DirectionOf(n: u64): (r: Result<Direction>)
    ensures r.Ok? ==> DirectionCode(r.value) == n
  {
    if n >= 0x1_0000_0000 then Err(InvalidDataPayload)
    else if n == 1 then Ok(InitiatorToResponder)
    else if n == 2 then Ok(ResponderToInitiator)
    else Err(InvalidDirection(n))
  }

  predicate IsHandshakeType(t: MessageType) {
    t.Handshake? || t.Rekey?
  }

  // ------------------------------------------------------------------ HELLO

  datatype HelloPayload = HelloPayload(
    cipherSuite: u64, purpose: Purpose, role: Role,
    identity: Bytes32, ephemeral: Bytes32, nonce: Bytes16, previous: Option<Bytes16>)

  function HelloSlots(h: HelloPayload): Slots {
    [Some(UInt(1)), Some(UInt(h.cipherSuite)), Some(UInt(PurposeCode(h.purpose))), Some(UInt(RoleCode(h.role))),
     Some(Bytes(h.identity)), Some(Bytes(h.ephemeral)), Some(Bytes(h.nonce)), BytesSlot(h.previous)]
  }

  predicate ValidHello(h: HelloPayload) {
    h.cipherSuite == 1 && PurposeMatchesPrevious(h.purpose, h.previous.Some?)
  }

  function HelloFrom(s: Slots): Result<HelloPayload>
    requires |s| == 8
  {
    var version :- UIntOf(s[0], InvalidHandshake);
    if version != 1 then Err(UnsupportedVersion(version))
    else
      var cipherSuite :- UIntOf(s[1], InvalidHandshake);
      if cipherSuite != 1 then Err(InvalidHandshake)
      else
        var purposeCode :- UIntOf(s[2], InvalidHandshake);
        var purpose :- PurposeOf(purposeCode);
        var roleCode :- UIntOf(s[3], InvalidHandshake);
        var role :- RoleOf(roleCode);
        var identity :- BytesOf(s[4], 32, InvalidHandshake);
        var ephemeral :- BytesOf(s[5], 32, InvalidHandshake);
        var nonce :- BytesOf(s[6], 16, InvalidHandshake);
        var previous :- OptionalBytesOf(s[7], 16);
        if !PurposeMatchesPrevious(purpose, previous.Some?) then Err(InvalidHandshake)
        else Ok(HelloPayload(cipherSuite, purpose, role, identity, ephemeral, nonce, previous))
  }

  lemma HelloFields(s: Slots, h: HelloPayload)
    requires |s| == 8
    ensures HelloFrom(s) == Ok(h) <==> ValidHello(h) && s == HelloSlots(h)
  {
  }

  function EncodeHello(h: HelloPayload): Result<Frame> {
    if !ValidHello(h) then Err(InvalidHandshake)
    else NewFrame(MessageTypeForPurpose(h.purpose), WriteSlots(HelloSlots(h)))
  }

  function DecodeHello(f: Frame): Result<HelloPayload> {
    if !IsHandshakeType(f.messageType) then Err(InvalidHandshake)
    else
      var s :- ReadSlots(f.payload, 8, InvalidHandshake);
      var h :- HelloFrom(s);
      if f.messageType != MessageTypeForPurpose(h.purpose) then Err(InvalidHandshake) else Ok(h)
  }

  /** The frames that decode to `h` are exactly its encoding: both directions of the HELLO round trip. */
  lemma HelloCodec(f: Frame, h: HelloPayload)
    ensures DecodeHello(f) == Ok(h) <==> EncodeHello(h) == Ok(f)
    ensures ValidHello(h) ==> EncodeHello(h).Ok?
  {
    var slots := HelloSlots(h);
    SmallPayload(slots);
    ReadIffWritten(f.payload, slots, InvalidHandshake);
    var read := ReadSlots(f.payload, 8, InvalidHandshake);
    if read.Ok? {
      HelloFields(read.value, h);
    }
  }

  // ------------------------------------------------------------------ COMMIT

  datatype CommitPayload = CommitPayload(
    cipherSuite: u64, purpose: Purpose, commitment: Bytes32, previous: Option<Bytes16>)

  function CommitSlots(c: CommitPayload): Slots {
    [Some(UInt(1)), Some(UInt(c.cipherSuite)), Some(UInt(PurposeCode(c.purpose))), Some(Bytes(c.commitment)),
     BytesSlot(c.previous)]
  }

  predicate ValidCommit(c: CommitPayload) {
    c.cipherSuite == 1 && PurposeMatchesPrevious(c.purpose, c.previous.Some?)
  }

  function CommitFrom(s: Slots): Result<CommitPayload>
    requires |s| == 5
  {
    var version :- UIntOf(s[0], InvalidHandshake);
    if version != 1 then Err(UnsupportedVersion(version))
    else
      var cipherSuite :- UIntOf(s[1], InvalidHandshake);
      if cipherSuite != 1 then Err(InvalidHandshake)
      else
        var purposeCode :- UIntOf(s[2], InvalidHandshake);
        var purpose :- PurposeOf(purposeCode);
        var commitment :- BytesOf(s[3], 32, InvalidHandshake);
        var previous :- OptionalBytesOf(s[4], 16);
        if !PurposeMatchesPrevious(purpose, previous.Some?) then Err(InvalidHandshake)
        else Ok(CommitPayload(cipherSuite, purpose, commitment, previous))
  }

  lemma CommitFields(s: Slots, c: CommitPayload)
    requires |s| == 5
    ensures CommitFrom(s) == Ok(c) <==> ValidCommit(c) && s == CommitSlots(c)
  {
  }

  function EncodeCommit(c: CommitPayload): Result<Frame> {
    if !ValidCommit(c) then Err(InvalidHandshake)
    else NewFrame(MessageTypeForPurpose(c.purpose), WriteSlots(CommitSlots(c)))
  }

  function DecodeCommit(f: Frame): Result<CommitPayload> {
    if !IsHandshakeType(f.messageType) then Err(InvalidHandshake)
    else
      var s :- ReadSlots(f.payload, 5, InvalidHandshake);
      var c :- CommitFrom(s);
      if f.messageType != MessageTypeForPurpose(c.purpose) then Err(InvalidHandshake) else Ok(c)
  }

  lemma CommitCodec(f: Frame, c: CommitPayload)
    ensures DecodeCommit(f) == Ok(c) <==> EncodeCommit(c) == Ok(f)
    ensures ValidCommit(c) ==> EncodeCommit(c).Ok?
  {
    var slots := CommitSlots(c);
    SmallPayload(slots);
    ReadIffWritten(f.payload, slots, InvalidHandshake);
    var read := ReadSlots(f.payload, 5, InvalidHandshake);
    if read.Ok? {
      CommitFields(read.value, c);
    }
  }

  // ------------------------------------------------------------------ transcript

  datatype Transcript = Transcript(
    purpose: Purpose, cipherSuite: u64,
    initiatorIdentity: Bytes32, responderIdentity: Bytes32,
    initiatorEphemeral: Bytes32, responderEphemeral: Bytes32,
    initiatorNonce: Bytes16, responderNonce: Bytes16, previous: Option<Bytes16>)

  function TranscriptSlots(t: Transcript): Slots {
    [Some(UInt(1)), Some(UInt(t.cipherSuite)), Some(UInt(PurposeCode(t.purpose))), Some(UInt(0)), Some(UInt(1)),
     BytesSlot(t.previous), Some(Bytes(t.initiatorIdentity)), Some(Bytes(t.responderIdentity)),
     Some(Bytes(t.initiatorEphemeral)), Some(Bytes(t.responderEphemeral)),
     Some(Bytes(t.initiatorNonce)), Some(Bytes(t.responderNonce))]
  }

  function EncodeTranscript(t: Transcript): seq<byte> {
    WriteSlots(TranscriptSlots(t))
  }

  lemma TranscriptFields(t: Transcript, u: Transcript)
    requires TranscriptSlots(t) == TranscriptSlots(u)
    ensures t == u
  {
    var s := TranscriptSlots(t);
    assert s[1].value.n == t.cipherSuite && s[2].value.n == PurposeCode(t.purpose);
    assert s[5] == BytesSlot(t.previous) == BytesSlot(u.previous);
    assert s[6].value.bytes == t.initiatorIdentity && s[7].value.bytes == t.responderIdentity;
    assert s[8].value.bytes == t.initiatorEphemeral && s[9].value.bytes == t.responderEphemeral;
    assert s[10].value.bytes == t.initiatorNonce && s[11].value.bytes == t.responderNonce;
  }

  /** The hashed bytes determine every field, so a hash that is injective on bytes is so on transcripts. */
  lemma TranscriptInjective(t: Transcript, u: Transcript)
    ensures EncodeTranscript(t) == EncodeTranscript(u) ==> t == u
  {
    SmallPayload(TranscriptSlots(t));
    WriteInjective(TranscriptSlots(t), TranscriptSlots(u));
    if EncodeTranscript(t) == EncodeTranscript(u) {
      TranscriptFields(t, u);
    }
  }

  // ------------------------------------------------------------------ AUTH

  datatype AuthPayload = AuthPayload(
    transcript: Transcript, stage: nat, initiatorSignature: Bytes64, responderSignature: Option<Bytes64>)

  function AuthSlots(a: AuthPayload): Slots
    requires a.stage < U64_LIMIT
  {
    var t := a.transcript;
    [Some(UInt(PurposeCode(t.purpose))), Some(UInt(a.stage)), Some(UInt(t.cipherSuite)),
     Some(Bytes(t.initiatorIdentity)), Some(Bytes(t.responderIdentity)),
     Some(Bytes(t.initiatorEphemeral)), Some(Bytes(t.responderEphemeral)),
     Some(Bytes(t.initiatorNonce)), Some(Bytes(t.responderNonce)), BytesSlot(t.previous),
     Some(Bytes(a.initiatorSignature)), BytesSlot(a.responderSignature)]
  }

  /** What the encoder checks: a stage-1 payload without responder signature passes. */
  predicate EncodableAuth(a: AuthPayload) {
    a.transcript.cipherSuite == 1 && a.stage <= 1 && (a.stage == 0 ==> a.responderSignature.None?)
    && PurposeMatchesPrevious(a.transcript.purpose, a.transcript.previous.Some?)
  }

  function AuthFrom(s: Slots): Result<AuthPayload>
    requires |s| == 12
  {
    var purposeCode :- UIntOf(s[0], InvalidHandshake);
    var purpose :- PurposeOf(purposeCode);
    var stage :- UIntOf(s[1], InvalidHandshake);
    if stage >= 256 then Err(InvalidHandshake)
    else
      var cipherSuite :- UIntOf(s[2], InvalidHandshake);
      if cipherSuite != 1 then Err(InvalidHandshake)
      else
        var initiatorIdentity :- BytesOf(s[3], 32, InvalidHandshake);
        var responderIdentity :- BytesOf(s[4], 32, InvalidHandshake);
        var initiatorEphemeral :- BytesOf(s[5], 32, InvalidHandshake);
        var responderEphemeral :- BytesOf(s[6], 32, InvalidHandshake);
        var initiatorNonce :- BytesOf(s[7], 16, InvalidHandshake);
        var responderNonce :- BytesOf(s[8], 16, InvalidHandshake);
        var previous :- OptionalBytesOf(s[9], 16);
        var initiatorSignature :- BytesOf(s[10], 64, InvalidHandshake);
        var responderSignature :- OptionalBytesOf(s[11], 64);
        var t := Transcript(purpose, cipherSuite, initiatorIdentity, responderIdentity,
                            initiatorEphemeral, responderEphemeral, initiatorNonce, responderNonce, previous);
        if stage > 1 || (stage == 1) != responderSignature.Some? then Err(InvalidHandshake)
        else if !PurposeMatchesPrevious(purpose, previous.Some?) then Err(InvalidHandshake)
        else Ok(AuthPayload(t, stage, initiatorSignature, responderSignature))
  }

  /** What the decoder requires beyond the encoder: stage 1 carries the responder's signature. */
  predicate SignedForStage(a: AuthPayload) {
    a.stage == 1 ==> a.responderSignature.Some?
  }

  lemma AuthFields(s: Slots, a: AuthPayload)
    requires |s| == 12
    ensures AuthFrom(s) == Ok(a) <==> EncodableAuth(a) && SignedForStage(a) && s == AuthSlots(a)
  {
  }

  function EncodeAuth(a: AuthPayload): Result<Frame> {
    if !EncodableAuth(a) then Err(InvalidHandshake)
    else NewFrame(MessageTypeForPurpose(a.transcript.purpose), WriteSlots(AuthSlots(a)))
  }

  function DecodeAuth(f: Frame): Result<AuthPayload> {
    if !IsHandshakeType(f.messageType) then Err(InvalidHandshake)
    else
      var s :- ReadSlots(f.payload, 12, InvalidHandshake);
      var a :- AuthFrom(s);
      if f.messageType != MessageTypeForPurpose(a.transcript.purpose) then Err(InvalidHandshake) else Ok(a)
  }

  /** Decoding inverts encoding, and the other way round exactly when stage 1 carries its signature. */
  lemma AuthCodec(f: Frame, a: AuthPayload)
    ensures DecodeAuth(f) == Ok(a) <==> EncodeAuth(a) == Ok(f) && SignedForStage(a)
    ensures EncodableAuth(a) ==> EncodeAuth(a).Ok?
  {
    hide ReadSlots, WriteSlots;
    var read := ReadSlots(f.payload, 12, InvalidHandshake);
    if read.Ok? {
      AuthFields(read.value, a);
    }
    if EncodableAuth(a) {
      var slots := AuthSlots(a);
      SmallPayload(slots);
      ReadIffWritten(f.payload, slots, InvalidHandshake);
    }
  }

  lemma SameEncoding(a: AuthPayload, d: AuthPayload)
    requires EncodableAuth(a) && EncodableAuth(d) && EncodeAuth(a) == EncodeAuth(d)
    ensures EncodeAuth(a).Ok? ==> AuthSlots(a) == AuthSlots(d)
  {
    SmallPayload(AuthSlots(a));
    WriteInjective(AuthSlots(a), AuthSlots(d));
  }

  /** The family the encoder lets through and the decoder refuses, and nothing else. */
  lemma AuthAsymmetry(a: AuthPayload)
    requires EncodableAuth(a)
    ensures EncodeAuth(a).Ok?
    ensures DecodeAuth(EncodeAuth(a).value).Ok? <==> SignedForStage(a)
  {
    AuthCodec(Frame(Handshake, []), a);
    var f := EncodeAuth(a).value;
    AuthCodec(f, a);
    if DecodeAuth(f).Ok? {
      var d := DecodeAuth(f).value;
      AuthCodec(f, d);
      SameEncoding(a, d);
      StageFields(a, d);
    }
  }

  /** A stage-1 payload with no responder signature and every field zero. */
  function UnsignedStageOne(): AuthPayload {
    var zeros32: Bytes32, zeros16: Bytes16 := seq(32, _ => 0), seq(16, _ => 0);
    AuthPayload(Transcript(Initial, 1, zeros32, zeros32, zeros32, zeros32, zeros16, zeros16, None), 1,
                seq(64, _ => 0), None)
  }

  /** The encoder turns it into a frame that the decoder refuses. */
  lemma UnsignedStageOneIsRefused()
    ensures EncodeAuth(UnsignedStageOne()).Ok?
    ensures DecodeAuth(EncodeAuth(UnsignedStageOne()).value).Err?
  {
    hide EncodeAuth, DecodeAuth;
    AuthAsymmetry(UnsignedStageOne());
  }

  lemma StageFields(a: AuthPayload, d: AuthPayload)
    requires a.stage <= 1 && d.stage <= 1 && AuthSlots(a) == AuthSlots(d)
    ensures a.stage == d.stage && a.responderSignature == d.responderSignature
  {
    var s := AuthSlots(a);
    assert s[1].value.n == a.stage && s[1].value.n == d.stage;
    assert s[11] == BytesSlot(a.responderSignature) == BytesSlot(d.responderSignature);
  }

  /** The encoder pushes the optional fields last and sorts; the result is in key order again. */
  method AuthEntries(a: AuthPayload) returns (entries: seq<Entry>)
    requires EncodableAuth(a)
    ensures entries == Collect(AuthSlots(a), 0)
  {
    var fixed := MandatoryEntries(a);
    var previous := OptionalEntry(9, a.transcript.previous);
    var first := [Entry(10, Bytes(a.initiatorSignature))];
    var second := OptionalEntry(11, a.responderSignature);
    entries := fixed + first;
    entries := entries + previous;
    entries := entries + second;
    ghost var pushed := entries;
    entries := SortByKey(entries);

    InKeyOrder(a);
    PushedLate(fixed, previous, first, second);
    SortedIsUnique(fixed + previous + first + second, entries);
  }

  /** The nine fields before the predecessor. */
  function MandatoryEntries(a: AuthPayload): seq<Entry>
    requires EncodableAuth(a)
  {
    Collect(AuthSlots(a)[..9], 0)
  }

  function OptionalEntry(key: u64, b: Option<seq<byte>>): seq<Entry> {
    if b.Some? then [Entry(key, Bytes(b.value))] else []
  }

  lemma InKeyOrder(a: AuthPayload)
    requires EncodableAuth(a)
    ensures Increasing(Collect(AuthSlots(a), 0))
    ensures Collect(AuthSlots(a), 0) == MandatoryEntries(a) + OptionalEntry(9, a.transcript.previous)
                                      + [Entry(10, Bytes(a.initiatorSignature))]
                                          + OptionalEntry(11, a.responderSignature)
  {
    hide Collect;
    var s := AuthSlots(a);
    CollectKeys(s, 0);
    LastThree(s);
    assert s[9] == BytesSlot(a.transcript.previous) && s[11] == BytesSlot(a.responderSignature);
  }

  lemma LastThree(s: Slots)
    requires |s| == 12
    ensures Collect(s, 0) == Collect(s[..9], 0) + OneEntry(9, s[9]) + OneEntry(10, s[10]) + OneEntry(11, s[11])
  {
    hide Collect;
    assert s == s[..9] + [s[9]] + [s[10]] + [s[11]];
    AppendThree(s[..9], s[9], s[10], s[11]);
    CollectOne(s[9], 9);
    CollectOne(s[10], 10);
    CollectOne(s[11], 11);
  }

  function OneEntry(key: u64, slot: Option<Value>): seq<Entry> {
    if slot.Some? then [Entry(key, slot.value)] else []
  }

  lemma AppendThree(x: Slots, a: Option<Value>, b: Option<Value>, c: Option<Value>)
    requires |x| == 9
    ensures Collect(x + [a] + [b] + [c], 0) == Collect(x, 0) + Collect([a], 9) + Collect([b], 10) + Collect([c], 11)
  {
    hide Collect;
    CollectAppend(x, [a], 0);
    CollectAppend(x + [a], [b], 0);
    CollectAppend(x + [a] + [b], [c], 0);
  }

  lemma CollectOne(slot: Option<Value>, key: nat)
    requires key < 23
    ensures Collect([slot], key) == OneEntry(key, slot)
  {
    assert Collect([slot][1..], key + 1) == [];
  }

  lemma PushedLate(w: seq<Entry>, x: seq<Entry>, y: seq<Entry>, z: seq<Entry>)
    ensures multiset(w + y + x + z) == multiset(w + x + y + z)
  {
  }

  lemma {:induction false} CollectAppend(x: Slots, y: Slots, base: nat)
    requires base + |x| + |y| < 24
    ensures Collect(x + y, base) == Collect(x, base) + Collect(y, base + |x|)
  {
    hide Collect;
    if x == [] {
      assert x + y == y;
      NothingCollected(base);
    } else {
      CollectStep(x + y, base);
      CollectStep(x, base);
      assert (x + y)[1..] == x[1..] + y && (x + y)[0] == x[0];
      CollectAppend(x[1..], y, base + 1);
    }
  }

  lemma LeastFirst(x: seq<Entry>, y: seq<Entry>)
    requires Increasing(x) && Ascending(y) && multiset(x) == multiset(y) && x != []
    ensures y != [] && x[0] == y[0]
  {
    assert x[0] in multiset(x);
    assert x[0] in y;
    assert y[0] in multiset(y);
    assert y[0] in x;
    var i :| 0 <= i < |y| && y[i] == x[0];
    var j :| 0 <= j < |x| && x[j] == y[0];
  }

  lemma WithoutHead(x: seq<Entry>)
    requires x != []
    ensures multiset(x[1..]) == multiset(x) - multiset{x[0]}
  {
    assert x == [x[0]] + x[1..];
  }

  /** There is one way to sort entries with distinct keys. */
  lemma {:induction false} SortedIsUnique(x: seq<Entry>, y: seq<Entry>)
    requires Increasing(x) && Ascending(y) && multiset(x) == multiset(y)
    ensures x == y
    decreases |x|
  {
    if x == [] {
      assert |multiset(y)| == 0;
    } else {
      LeastFirst(x, y);
      WithoutHead(x);
      WithoutHead(y);
      SortedIsUnique(x[1..], y[1..]);
      assert x == [x[0]] + x[1..];
      assert y == [y[0]] + y[1..];
    }
  }
}
