# RUXMSG/1 protocol core

A Dafny model of the sans-IO core of RUXMSG/1 and of the deadline bookkeeping of its driver, with proofs of
what the protocol promises over whole runs. `dafny verify dfyconfig.toml` checks everything.

## Layers

- **Wire.** `Cbor` is the item grammar of RFC 8949 (sections 3 and 4.1) and the explicit-stack scan; `CanonicalMap`
  the canonical-map check (section 4.2.1); `Framing` the frame header and the incremental decoder; `Payloads` and
  `SessionPayloads` the codecs; `Plaintext` the padded DATA plaintext. These work on bytes.
- **DATA.** `Ratchet` is the replay bitmap and the receiving chain with its key cache, `Data` the sender and receiver.
- **Engine.** `Machine` is the state machine as functions of its whole state, one per method of the engine; `Engine` is
  the object whose methods update fields and are proved to do what `Machine` says. `EngineInvariants`, `RekeyIsolation`,
  `SasGating`, `Authenticity`, `EarlyAuth` and `Deadlines` prove what every input and every run keeps; `Responses`,
  `FrameResponses` and `HandshakeResponses` say what each input obliges an engine to do.
- **Two engines.** `HonestSteps` and `LocalSteps` say what one engine does with an honest peer's frames and with local
  input; `InFlight` relates a channel to its reader's sessions; `TwoEngines`, `Stages` and `LocalStages` give the joint
  state and its transitions; `SystemRuns`, `FirstHandshake`, `Glare` and `EndToEnd` prove the results about whole runs.
  `Stragglers`, `Estrangement` and `Parting` follow the two sides after a rekey timeout; `Occurrences` exhibits runs.
- **Driver.** `Driver` is the connection task's list of due times, its batch firing and its reaction to failures.

From `Symbolic` upwards cryptography is ideal: hashes, keys, signatures, authenticators and ciphertexts are terms, a
Diffie-Hellman secret is the unordered pair of its secrets, verification succeeds on the matching term only, and a
ciphertext opens only under the key, nonce and associated data it was sealed with. Entropy is a stream of distinct
draws. Since the byte codecs are proved mutually inverse, a frame is represented there by what it decodes to;
`Representation` proves that the symbolic decoders accept exactly what the byte decoders accept. A 64-bit
counter is a bounded integer, the 64-bit bitmap word is the list of its bits, and a raw identity key is the number its
bytes spell.

## Where the code and its documents differ

The model follows the code.

- The key cache admits a counter while held keys plus gap plus one are at most 128
  (crates/ruxmsg-core/src/ratchet.rs:162-170); the protocol document refuses a counter as
  soon as 64 keys are held.
- A late REKEY frame is dropped (crates/ruxmsg-core/src/machine.rs:1109-1122); docs/architecture.md:115 says that it
  ends the session. `RekeyIsolation.RekeyIsIsolated` and `LateFramesGrace` state what happens.
- The AUTH encoder lets a stage-1 payload without a responder signature through and the decoder refuses it.
  `Payloads.AuthAsymmetry` gives the exact condition for the round trip.
- Both sides do not always agree on the session, because the responder switches first: `Parting.TimeoutParts` says
  exactly which rekey timeout parts them, `Parting.PartedForGood` that nothing brings them back together, and
  `Occurrences.PartingHappens` that it happens. `SystemRuns.SessionAgreement` assumes that no handshake timeout fires.

## Model

The functions of `Machine` are the transition function and carry no contract of their own; the methods of
`Engine.Engine` refine them one by one, and the lemmas listed here state their properties.

| member | source | states |
|---|---|---|
| `Cbor.ParseIffEncoding` | crates/ruxmsg-core/src/wire.rs:235-339 | a byte string parses to a value if and only if it is that value's shortest-form, definite-length encoding (majors 0 to 5, at most 31 nested non-empty containers) |
| `Cbor.HeadOfParseHead` | crates/ruxmsg-core/src/wire.rs:309-339 | whatever head is read back is the unique shortest form of its argument |
| `Cbor.ParseHeadOfHead` | crates/ruxmsg-core/src/wire.rs:309-339 | every shortest-form head is read back with nothing consumed beyond it |
| `Cbor.ReadArgument` | crates/ruxmsg-core/src/wire.rs:309-339 | the argument loop returns the big-endian value and rejects truncated, reserved and longer-than-needed forms, exactly as the head grammar says |
| `Cbor.ScanItem` | crates/ruxmsg-core/src/wire.rs:243-300 | one turn of the explicit-stack scan consumes one item head and turns the stack of open containers into that of the remaining structure |
| `Cbor.ValidateStructure` | crates/ruxmsg-core/src/wire.rs:243-307 | the iterative scan with its stack terminates and accepts exactly the strings that parse, that is, the encodings of one value |
| `CanonicalMap.CanonicalIffEncoding` | crates/ruxmsg-core/src/wire.rs:138-233 | entries come back if and only if the payload is the encoding of the map with those entries in strictly increasing key order, every text string in it UTF-8 |
| `CanonicalMap.AcceptedIffDeterministic` | crates/ruxmsg-core/src/wire.rs:138-233 | the same in the words of section 4.2.1 of RFC 8949: accepted if and only if the encoded keys stand in strictly increasing bytewise order |
| `CanonicalMap.KeyOrderIsBytewise` | crates/ruxmsg-core/src/wire.rs:201-219 | a key is smaller if and only if its encoding comes first in bytewise order (section 4.2.1 of RFC 8949) |
| `CanonicalMap.SortByKey` | crates/ruxmsg-core/src/wire.rs:201-205 | the sort returns the same entries in ascending key order |
| `CanonicalMap.CollectEntries` | crates/ruxmsg-core/src/wire.rs:160-199 | entries are collected with duplicate and non-integer keys refused, and a refusal means the map was not canonical |
| `CanonicalMap.ValidateMap` | crates/ruxmsg-core/src/wire.rs:134-233 | size check, scan, text check, duplicate check, sort and re-encode together return exactly the canonical entries, and every refusal is one that ends a session on DATA |
| `Framing.DecodeOfEncode` | crates/ruxmsg-core/src/wire.rs:80-131 | an encoded frame followed by anything decodes to that frame and its own length |
| `Framing.EncodeOfDecode` | crates/ruxmsg-core/src/wire.rs:80-131 | what decodes re-encodes to exactly the bytes consumed |
| `Framing.PullDecides` | crates/ruxmsg-net/src/lib.rs:90-115 | a frame is taken exactly from its encoding; behind a whole header more is awaited exactly if the bytes begin a longer encoding; otherwise they are refused, for their version exactly if it is another one |
| `Framing.FrameDecoder.Push` | crates/ruxmsg-net/src/lib.rs:82-84 | pushed bytes are appended to the buffer |
| `Framing.FrameDecoder.Next` | crates/ruxmsg-net/src/lib.rs:90-115 | one pull yields the frame, the need for more or the error that the buffer's bytes determine, and drains what it consumed |
| `Framing.FrameDecoder.Drain` | crates/ruxmsg-net/src/lib.rs:328-341 | pulling until nothing more comes yields what decoding the whole buffer yields |
| `Framing.ChunkIndependence` | crates/ruxmsg-net/src/lib.rs:70-116 | any split of a byte stream into pushes, drained after each, gives the frames and the first error of the whole stream; what stays buffered without an error is less than one maximum frame |
| `Framing.StreamRoundTrip` | crates/ruxmsg-net/src/lib.rs:70-116 | a stream of encoded frames decodes back to those frames |
| `Payloads.MapIntoFields` | crates/ruxmsg-core/src/encoding.rs:83-99 | the slot vector holds each key's value, and a key outside the range is refused |
| `Payloads.ReadIffWritten` | crates/ruxmsg-core/src/wire.rs:138-233 | fields are read from a payload if and only if the payload is the one written from them |
| `Payloads.HelloCodec` | crates/ruxmsg-core/src/handshake.rs:54-145 | HELLO: decode yields h if and only if encoding h gives this frame, so the two are mutually inverse |
| `Payloads.CommitCodec` | crates/ruxmsg-core/src/handshake.rs:160-241 | COMMIT: decode and encode are mutually inverse on what decode accepts |
| `Payloads.TranscriptInjective` | crates/ruxmsg-core/src/encoding.rs:27-71 | equal transcript encodings are equal transcripts |
| `Payloads.AuthEntries` | crates/ruxmsg-core/src/handshake.rs:323-371 | the pushes and the sort produce exactly the AUTH map in key order |
| `Payloads.AuthCodec` | crates/ruxmsg-core/src/handshake.rs:323-470 | AUTH: decode yields a if and only if encoding a gives this frame and a stage-1 payload is signed by the responder |
| `Payloads.UnsignedStageOneIsRefused` | crates/ruxmsg-core/src/handshake.rs:328-455 | a concrete AUTH payload that the encoder turns into a frame and the decoder refuses |
| `Payloads.AuthAsymmetry` | crates/ruxmsg-core/src/handshake.rs:328-455 | every encodable AUTH is decoded again if and only if it is not a stage-1 payload without a responder signature |
| `SessionPayloads.ConfirmCodec` | crates/ruxmsg-core/src/handshake.rs:483-527 | SESSION_CONFIRM: decode and encode are mutually inverse on what decode accepts |
| `SessionPayloads.CloseCodec` | crates/ruxmsg-core/src/close.rs:47-114 | CLOSE: decode and encode are mutually inverse on what decode accepts |
| `SessionPayloads.CloseEntries` | crates/ruxmsg-core/src/close.rs:47-71 | the optional session id and detail land in key order around the reason |
| `SessionPayloads.EnvelopeCodec` | crates/ruxmsg-core/src/data.rs:328-400 | DATA envelope: decode and encode are mutually inverse on what decode accepts |
| `SessionPayloads.DecodeEnvelopeEntries` | crates/ruxmsg-core/src/data.rs:347-400 | the field loop returns the envelope, or the error of the first field that is refused |
| `SessionPayloads.FieldsIffSlots` | crates/ruxmsg-core/src/data.rs:347-400 | an envelope is read if and only if its four fields are present, well typed and alone |
| `SessionPayloads.AadInjective` | crates/ruxmsg-core/src/data.rs:402-417 | the associated data fixes session, direction and counter |
| `SessionPayloads.HandshakeKindsDisjoint` | crates/ruxmsg-core/src/handshake.rs:87-241 | no frame decodes as two of HELLO, COMMIT and AUTH |
| `SessionPayloads.CommitmentOpensToHello` | crates/ruxmsg-core/src/machine.rs:743-760 | a commitment to a HELLO's payload bytes is opened by that HELLO's frame and by no other |
| `SessionPayloads.RevealFixesHello` | crates/ruxmsg-core/src/machine.rs:743-760 | any two frames that open one commitment are the same frame and the same HELLO in every field, whoever made the commitment |
| `EngineInvariants.OnlyCommittedGoesOn` | crates/ruxmsg-core/src/machine.rs:743-760 | the responder goes on after a reveal if and only if it decodes, fits the run and opens the commitment; otherwise the step fails and changes nothing |
| `EngineInvariants.OneRevealPerCommit` | crates/ruxmsg-core/src/machine.rs:691-760 | under one COMMIT two accepted reveals carry the same HELLO and lead to the same engine state and effects |
| `Plaintext.BstrHeaderLenIsHead` | crates/ruxmsg-core/src/data.rs:37-47 | the header length function agrees with the encoder's byte-string head |
| `Plaintext.Padded` | crates/ruxmsg-core/src/data.rs:65-88 | the search loop ends with the least padding that aligns the sealed size to 256, for every content up to the limit, and fails only on larger content |
| `Plaintext.PaddingIsLeast` | crates/ruxmsg-core/src/data.rs:65-88 | no smaller padding aligns, despite header jumps that skip a multiple |
| `Plaintext.LongestPadding` | crates/ruxmsg-core/src/data.rs:65-88 | padding never exceeds 278 bytes, and reaches 278 at content length 210 |
| `Plaintext.PlaintextCodec` | crates/ruxmsg-core/src/data.rs:91-149 | the plaintext map decodes to p if and only if it is p's encoding |
| `Plaintext.PaddedRoundTrip` | crates/ruxmsg-core/src/data.rs:65-149 | what is padded and encoded decodes to the content |
| `Data.SealedInQuanta` | crates/ruxmsg-core/src/data.rs:65-88 | the ciphertext of a sealed frame has a multiple of 256 bytes, at most 310 more than the content |
| `Data.PaddedContentFits` | crates/ruxmsg-core/src/data.rs:196-233 | framing padded admissible content cannot fail, so a sender that has advanced never reports an error |
| `Data.EncodePayloadIsByteCodec` | crates/ruxmsg-core/src/data.rs:328-345 | framing a sealed envelope fails exactly when the byte codec does on a ciphertext of that length, with the same error |
| `SessionPayloads.EnvelopeSize` | crates/ruxmsg-core/src/data.rs:328-345 | the length of a DATA payload depends on counter and ciphertext length only, and exceeds the latter by at most 41 bytes |
| `Plaintext.SealedFrameFits` | crates/ruxmsg-core/src/data.rs:196-233 | the bytes of a sealed content of any admissible size make a frame that decodes to its envelope |
| `Ratchet.ReplayWindow.ClassifyCounter` | crates/ruxmsg-core/src/ratchet.rs:42-60 | the bitmap lookup says what Classify says |
| `Ratchet.ReplayWindow.Accept` | crates/ruxmsg-core/src/ratchet.rs:63-92 | a new counter is recorded by shifting or setting a bit; any other is refused and nothing changes |
| `Ratchet.ClassifyRefines` | crates/ruxmsg-core/src/ratchet.rs:42-60 | New, Duplicate or TooOld exactly as the accepted set and its maximum dictate |
| `Ratchet.RecordRefines` | crates/ruxmsg-core/src/ratchet.rs:63-92 | recording a counter refines adding it to the set, shifts of 64 and more and counters near the 64-bit limit included |
| `Ratchet.BitmapRefinesSet` | crates/ruxmsg-core/src/ratchet.rs:42-92 | the refinement holds after any sequence of accept calls |
| `Ratchet.ReceivingChain.PrepareMessageKey` | crates/ruxmsg-core/src/ratchet.rs:136-191 | the derivation loop caches every key up to the counter; a refusal (consumed, counter limit, gap, cache bound) changes nothing |
| `Ratchet.ReceivingChain.CommitMessageKey` | crates/ruxmsg-core/src/ratchet.rs:196-202 | a commit removes exactly that key and fails if it is not there |
| `Ratchet.PrepareInv` | crates/ruxmsg-core/src/ratchet.rs:136-191 | preparing keeps the cache exactly the derived but unconsumed keys, each at its own place of the chain, at most 128 |
| `Ratchet.PreparableIff` | crates/ruxmsg-core/src/ratchet.rs:136-191 | a key is refused as unavailable exactly if it was consumed, and for the limits exactly if its counter is the last one, more than 64 ahead of the frontier, or would make the cache hold more than 128 keys |
| `Ratchet.CommitInv` | crates/ruxmsg-core/src/ratchet.rs:196-202 | committing moves one counter from the cache to the consumed set |
| `Ratchet.KeysAgree` | crates/ruxmsg-core/src/ratchet.rs:136-202 | in any sequence of prepare and commit calls the key returned for a counter is that counter's key of the sender's chain, with never more than 128 held |
| `Data.DataSender.Encrypt` | crates/ruxmsg-core/src/data.rs:196-233 | a content is sealed under the current key and counter, which then advance; it fails if and only if the content is oversized or the counter exhausted, and then the sender stays as it was, although chain and counter advance before the payload is framed |
| `Data.NoncesNeverRepeat` | crates/ruxmsg-core/src/data.rs:196-233 | the k-th frame of a sender carries its own counter and that counter's chain key, whatever was refused in between, so no key and nonce pair repeats |
| `Data.DataReceiver.DecryptFrame` | crates/ruxmsg-core/src/data.rs:269-325 | the prepare, authenticate, validate and commit path, in which neither commit call can fail |
| `Data.DecryptStep` | crates/ruxmsg-core/src/data.rs:269-325 | one call on any frame keeps the accepted counters exactly those below the frontier and missing from the cache; success consumes one new counter, failure consumes no key and leaves the window alone |
| `Data.AtMostOnce` | crates/ruxmsg-core/src/data.rs:269-325 | over any run on any frames each counter yields plaintext at most once |
| `Data.GenuineOpens` | crates/ruxmsg-core/src/data.rs:196-325 | a sender's n-th frame opens to its content under the n-th key |
| `Data.ForgeriesCannotBlock` | crates/ruxmsg-core/src/data.rs:269-325 | genuine frames in order, interleaved with any number of unreadable, forged or replayed ones, all decrypt to their contents, and nothing else does |
| `Data.NewReceiverDelivers` | crates/ruxmsg-core/src/data.rs:254-325 | a new receiver delivers the contents of its sender from the first on, each under its counter, whatever forgeries and replays come in between |
| `Representation.HelloRepresents` | crates/ruxmsg-core/src/handshake.rs:54-145 | under any coding of keys, nonces and ids as bytes, the symbolic HELLO decoder accepts exactly what the byte decoder accepts, and reads the same fields |
| `Representation.CommitRepresents` | crates/ruxmsg-core/src/handshake.rs:160-241 | the same for COMMIT |
| `Representation.AuthRepresents` | crates/ruxmsg-core/src/handshake.rs:323-470 | the same for AUTH, unsigned stage 1 included |
| `Representation.ConfirmRepresents` | crates/ruxmsg-core/src/handshake.rs:483-527 | the same for SESSION_CONFIRM |
| `Representation.CloseRepresents` | crates/ruxmsg-core/src/close.rs:47-114 | the same for CLOSE, whose detail the engine never looks at |
| `Representation.EnvelopeRepresents` | crates/ruxmsg-core/src/data.rs:328-400 | the same for the DATA envelope around a ciphertext that fits a frame |
| `Symbolic.AgreementCommutes` | crates/ruxmsg-core/src/crypto.rs:152-161 | both sides of a Diffie-Hellman exchange compute one secret |
| `Symbolic.IdentityOrderIsBytewise` | crates/ruxmsg-core/src/handshake.rs:615-620 | an identity is smaller as a number if and only if its raw key bytes come first |
| `EngineInvariants.HandleKeeps` | crates/ruxmsg-core/src/machine.rs:357-473 | one input on any reachable engine keeps the typestate and the exact deadline table; at most 4 deadlines stay armed, at most 8 effects come out, and a closed engine does nothing |
| `EngineInvariants.ReachableValid` | crates/ruxmsg-core/src/machine.rs:301-383 | at every moment of every run from a new engine the typestate and deadline table hold, with at most 4 deadlines armed and 8 effects emitted |
| `EngineInvariants.StepRunKeeps` | crates/ruxmsg-core/src/machine.rs:722-863 | one step of a run leaves a valid running engine, a candidate of that run, or an error with the deadlines untouched; no step unwraps a missing option |
| `EngineInvariants.AfterApprovalKeeps` | crates/ruxmsg-core/src/machine.rs:927-971 | approval goes on to AUTH, takes a buffered AUTH at once, and never completes a run by itself |
| `EngineInvariants.AfterHellosKeeps` | crates/ruxmsg-core/src/machine.rs:884-924 | after the HELLOs the run waits for its user, or signs when it is a rekey |
| `EngineInvariants.FailRekeyKeeps` | crates/ruxmsg-core/src/machine.rs:1190-1211 | a failed rekey leaves both sessions exactly as they were, no run and a retry deadline |
| `EngineInvariants.CompleteRekeyKeeps` | crates/ruxmsg-core/src/machine.rs:1032-1067 | completion either fails like any rekey or drains the old session under a new one of the same peer |
| `EngineInvariants.CompleteInitialKeeps` | crates/ruxmsg-core/src/machine.rs:1006-1030 | completion opens the engine with the rekey deadline alone |
| `EngineInvariants.TerminateKeeps` | crates/ruxmsg-core/src/machine.rs:1348-1375 | termination leaves nothing armed and nothing live, with at most three effects beyond the cancellations |
| `EngineInvariants.TimeoutKeeps` | crates/ruxmsg-core/src/machine.rs:441-473 | a timeout, stale or not, keeps the invariant |
| `EngineInvariants.InitiatorStarts` | crates/ruxmsg-core/src/machine.rs:515-564 | an initiator run always starts: it sends the commitment to exactly the HELLO it will reveal |
| `EngineInvariants.ResponderStarts` | crates/ruxmsg-core/src/machine.rs:566-619 | answering a well-formed COMMIT always succeeds, with the total deadline only for a rekey |
| `EngineInvariants.ResolveGlareKeeps` | crates/ruxmsg-core/src/machine.rs:1166-1186 | glare resolution keeps sessions and phase whatever the COMMIT |
| `EarlyAuth.EarlyAuthCommutes` | crates/ruxmsg-core/src/machine.rs:762-1002 | for a responder waiting on its user with nothing buffered, any HANDSHAKE frame and either decision, both orders give the same effects, deadline ids included, and the same state |
| `EarlyAuth.FrameThenDecision` | crates/ruxmsg-core/src/machine.rs:762-1002 | frame then approval is the AUTH step of the approved run |
| `EarlyAuth.DecisionThenFrame` | crates/ruxmsg-core/src/machine.rs:762-1002 | approval then frame is the same AUTH step |
| `RekeyIsolation.RekeyIsIsolated` | crates/ruxmsg-core/src/machine.rs:1071-1211 | in an established engine one input never changes the peer, replaces the active session only by a completed run that named it as predecessor, keeps draining and active ids apart, leaves sessions untouched when a rekey fails, and no REKEY frame ends the session |
| `RekeyIsolation.RunsAreIsolated` | crates/ruxmsg-core/src/machine.rs:1071-1211 | the same at every moment of every run of an engine |
| `RekeyIsolation.PeerIsConstant` | crates/ruxmsg-core/src/machine.rs:691-720 | over any run the peer identity is constant from Established until Closed |
| `RekeyIsolation.StepRunSilent` | crates/ruxmsg-core/src/machine.rs:722-971 | a step of a run reports nothing to the user, and a rekey never asks for a SAS decision |
| `RekeyIsolation.LateFramesGrace` | crates/ruxmsg-core/src/machine.rs:1095-1124 | as many unexpected frames as the grace allows are dropped without a trace; after that a SESSION_CONFIRM ends the session and a REKEY frame does not |
| `RekeyIsolation.FailureGrantsGrace` | crates/ruxmsg-core/src/machine.rs:1190-1193 | a failed rekey grants eight late frames |
| `RekeyIsolation.CloseIsAddressed` | crates/ruxmsg-core/src/machine.rs:1317-1346 | a readable CLOSE ends an established engine if and only if it names the active session |
| `SasGating.ApprovalComesFirst` | crates/ruxmsg-core/src/machine.rs:477-1002 | at every moment of every run of an engine an initial AUTH, a SESSION_CONFIRM or Established comes only after the question and a later approval that no refusal preceded, Established names the identity that was asked about, the question is asked at most once, and the frames before Established are a prefix of the role's sequence |
| `SasGating.SessionWasApproved` | crates/ruxmsg-core/src/machine.rs:884-1067 | in every run an established engine asked exactly one question, which was approved; it named the peer, and the active session, after any number of rekeys, comes down from the transcript whose hash it showed |
| `SasGating.UndecidedIsAwaited` | crates/ruxmsg-core/src/machine.rs:897-1002 | whoever was asked and has not decided is still waited for, unless the connection has ended |
| `SasGating.RefusalIsFinal` | crates/ruxmsg-core/src/machine.rs:975-991 | after a question and a refusal the engine has ended for good: no AUTH, SESSION_CONFIRM or Established was or is ever sent or reported, whatever is decided or arrives later |
| `SasGating.HistoryFits` | crates/ruxmsg-core/src/machine.rs:477-1002 | the observed history is the one that the engine's phase and step prescribe |
| `SasGating.HandleGate` | crates/ruxmsg-core/src/machine.rs:357-383 | one input takes history and state to a fitting pair, the question being about the hash and identity in the run |
| `SasGating.OpenMute` | crates/ruxmsg-core/src/machine.rs:621-644 | an established engine asks nothing, whatever arrives |
| `SasGating.RunSeen` | crates/ruxmsg-core/src/machine.rs:722-863 | each step of an initial run sends the next frame of its sequence, or ends the run |
| `Authenticity.SignaturesDecide` | crates/ruxmsg-core/src/machine.rs:774-833 | at both AUTH steps the run goes on if and only if the frame is an AUTH of that stage over the run's own transcript with the initiator's signature, and for the initiator the responder's too; then one frame answers it; otherwise the step fails, sends nothing, and a false signature is told apart |
| `Authenticity.MacsDecide` | crates/ruxmsg-core/src/machine.rs:835-861 | at both confirmation steps the run completes if and only if the frame is the other role's SESSION_CONFIRM with the authenticator of the run's keys; otherwise it fails and sends nothing |
| `Authenticity.HandleTrusts` | crates/ruxmsg-core/src/machine.rs:357-383 | one input keeps every session and every run with keys vouched for by frames that have arrived |
| `Authenticity.ActiveIsAuthentic` | crates/ruxmsg-core/src/machine.rs:691-861 | in every run the active session is with someone else, whom its transcript names, and earlier inputs carried that peer's signature over the transcript and that peer's confirmation of the keys |
| `Authenticity.NothingIsDrawnTwice` | crates/ruxmsg-core/src/machine.rs:505-513 | over any run of an engine the ephemerals and nonces of all its handshakes, abandoned ones included, come from distinct draws |
| `Authenticity.NobodyUnsigned` | crates/ruxmsg-core/src/handshake.rs:587-611 | nobody becomes the peer of a session whose signature has not arrived |
| `Responses.ContentIsSent` | crates/ruxmsg-core/src/machine.rs:1241-1275 | an established engine, whatever else it is doing, seals and sends all admissible content as its active sender's next frame, counts it, and offers a rekey exactly when the count reaches the limit, rekeys are not held back and none is under way |
| `Responses.ContentIsRefused` | crates/ruxmsg-core/src/machine.rs:1241-1275 | oversized content is refused as TooLarge and nothing else happens; other content is refused as NotActive before Established; an exhausted sender ends the connection; nothing else keeps content back |
| `Responses.NotActiveIff` | crates/ruxmsg-core/src/machine.rs:1248-1257 | NotActive is reported if and only if the engine is not established and the content within the limit |
| `Responses.RefusalEnds` | crates/ruxmsg-core/src/machine.rs:983-991 | a refusal ends an engine that waits for its user with Closed(SasDeclined) and one frame, the CLOSE with AuthenticationFailure |
| `Responses.UnaskedDecision` | crates/ruxmsg-core/src/machine.rs:975-982 | a decision that nobody waits for does nothing |
| `Responses.LocalEnds` | crates/ruxmsg-core/src/machine.rs:357-383 | a local close, a lost transport and malformed bytes end the connection with exactly their cause, and with a CLOSE that names the active session exactly when the peer is to be told |
| `Responses.RekeyOnRequest` | crates/ruxmsg-core/src/machine.rs:1071-1093 | a request offers a rekey in an idle established engine and does nothing in any other |
| `Responses.TimeoutAnswers` | crates/ruxmsg-core/src/machine.rs:441-473 | each kind of deadline does its own thing: an unanswered question or a stalled first handshake ends the connection with its reason, a stalled rekey fails and is retried in 30 seconds, a due rekey is offered and no longer held back, a drained session goes |
| `FrameResponses.MisplacedFrame` | crates/ruxmsg-core/src/machine.rs:623-644 | a frame before the start, or a HANDSHAKE frame once established, is a violation |
| `FrameResponses.CloseAnswers` | crates/ruxmsg-core/src/machine.rs:1317-1346 | an unreadable CLOSE is a violation, one that addresses the connection ends it for the peer's reason, one for the draining session drops that, and any other does nothing |
| `FrameResponses.DataAnswers` | crates/ruxmsg-core/src/machine.rs:1277-1307 | DATA is delivered and counted if the active session opens it, delivered and not counted if only the draining one does, ends the connection if malformed and is reported otherwise |
| `FrameResponses.OfferIsAnswered` | crates/ruxmsg-core/src/machine.rs:1109-1163 | an engine without a run answers an offer on its session, reports the start, and forgets earlier rejections and grace |
| `FrameResponses.StrayFrame` | crates/ruxmsg-core/src/machine.rs:1109-1124 | without a run a frame that offers nothing is forgiven during the grace; then a SESSION_CONFIRM is a violation and a REKEY frame a rejection, the third of which is reported |
| `FrameResponses.CrossingOffers` | crates/ruxmsg-core/src/machine.rs:1166-1186 | of two crossing offers one on another session is a rejection; otherwise the greater identity ignores it and the lesser answers, without a second report |
| `HandshakeResponses.StartAnswers` | crates/ruxmsg-core/src/machine.rs:477-503 | a new engine starts once, the dialing side with its COMMIT |
| `HandshakeResponses.HellosDecide` | crates/ruxmsg-core/src/machine.rs:691-924 | a HELLO is accepted if and only if it has the other role and the run's terms, another identity and ephemeral, in a rekey the peer's identity, for the responder the committed content, and an ephemeral of full order; then the run holds what both HELLOs determine and a first handshake asks about that hash and identity |
| `HandshakeResponses.FalseAuthEnds` | crates/ruxmsg-core/src/machine.rs:1222-1237 | in a first handshake a false signature over the right transcript ends it as unauthentic, any other refused AUTH as a violation |
| `HandshakeResponses.FalseConfirmationEnds` | crates/ruxmsg-core/src/machine.rs:1222-1237 | in a first handshake anything but the peer's confirmation of the run's keys ends it as unauthentic |
| `HandshakeResponses.FalseHelloEnds` | crates/ruxmsg-core/src/machine.rs:1222-1237 | in a first handshake a HELLO that is not acceptable ends it as a violation |
| `HandshakeResponses.ImpatientFrameEnds` | crates/ruxmsg-core/src/machine.rs:762-772 | while the user decides a responder keeps the first HANDSHAKE frame; any other frame is a violation |
| `HandshakeResponses.FirstCommitOnly` | crates/ruxmsg-core/src/machine.rs:665-676 | a waiting responder answers a first COMMIT, and any other readable frame is a violation |
| `HandshakeResponses.ApprovalAnswers` | crates/ruxmsg-core/src/machine.rs:927-1002 | approved, the initiator signs the transcript that was asked about; the responder waits, or decides at once on the AUTH that waited |
| `HandshakeResponses.ConfirmationCompletes` | crates/ruxmsg-core/src/machine.rs:1006-1067 | the peer's confirmation always completes a handshake: the session of the run's keys is active, the old one drains for 15 seconds, all counters start again, the next rekey is due in a day; nothing else completes one |
| `HandshakeResponses.RefusedRekeyFrame` | crates/ruxmsg-core/src/machine.rs:1190-1211 | a refused frame fails a rekey, leaves the session and is retried in 30 seconds; it is a change of peer exactly if a fitting HELLO was someone else's |
| `Data.GenuineOpensIff` | crates/ruxmsg-core/src/data.rs:269-325 | in any order a genuine frame opens to its content if and only if its counter is unaccepted, within the replay window, and derived already or within the skip and cache limits; otherwise it is refused for that reason |
| `Data.OnlySealedOpens` | crates/ruxmsg-core/src/data.rs:269-325 | what a receiver yields was sealed for its session and direction under the chain key of the counter shown, with that counter as nonce, and was never yielded before |
| `HonestSteps.Offers` | crates/ruxmsg-core/src/machine.rs:1071-1093 | a rekey request sends one COMMIT that names the active session |
| `HonestSteps.AnswersFirst` | crates/ruxmsg-core/src/machine.rs:665-676 | a waiting responder answers the first COMMIT with its HELLO |
| `HonestSteps.AnswersRekey` | crates/ruxmsg-core/src/machine.rs:1095-1163 | an idle established engine answers a COMMIT on its active session |
| `HonestSteps.GlareWins` | crates/ruxmsg-core/src/machine.rs:1126-1178 | the greater identity ignores a crossing COMMIT and changes nothing |
| `HonestSteps.GlareLoses` | crates/ruxmsg-core/src/machine.rs:1166-1186 | the lesser identity drops its own attempt and answers |
| `HonestSteps.ReadsAnswer` | crates/ruxmsg-core/src/machine.rs:729-741 | the initiator reveals, then asks its user or, in a rekey, signs at once |
| `HonestSteps.ReadsReveal` | crates/ruxmsg-core/src/machine.rs:743-760 | the responder accepts the reveal of an honest commitment |
| `HonestSteps.Countersigns` | crates/ruxmsg-core/src/machine.rs:798-833 | the responder verifies the first AUTH and countersigns |
| `HonestSteps.Confirms` | crates/ruxmsg-core/src/machine.rs:774-796 | the initiator verifies the countersignature and confirms |
| `HonestSteps.ResponderPromotes` | crates/ruxmsg-core/src/machine.rs:845-861 | the responder switches sessions on the initiator's confirmation, before the initiator does |
| `HonestSteps.InitiatorPromotes` | crates/ruxmsg-core/src/machine.rs:835-843 | the initiator switches on the responder's confirmation |
| `HonestSteps.FreshId` | crates/ruxmsg-core/src/crypto.rs:233-259 | a rekey's session id differs from its predecessor's |
| `InFlight.ReceivesExpected` | crates/ruxmsg-core/src/data.rs:269-325 | a receiver that missed nothing opens exactly the frame its peer sends next, and stays in order |
| `InFlight.AppendData` | crates/ruxmsg-core/src/machine.rs:1241-1275 | writing a content extends what the reader will deliver by exactly that content |
| `InFlight.AppendSwitch` | crates/ruxmsg-core/src/machine.rs:852-861 | a responder that confirms and switches at once keeps the channel readable |
| `InFlight.CatchesUp` | crates/ruxmsg-core/src/machine.rs:1032-1067 | when the initiator follows, all it sent before belongs to the old session |
| `LocalSteps.LocalOutcome` | crates/ruxmsg-core/src/machine.rs:357-383 | local input idles, offers a rekey, ends the connection or writes one content, and nothing else |
| `LocalSteps.ReadsActive` | crates/ruxmsg-core/src/machine.rs:1277-1287 | an awaited content of the active session is delivered, perhaps with a rekey offer |
| `LocalSteps.ReadsDraining` | crates/ruxmsg-core/src/machine.rs:1288-1294 | an awaited content of the draining session is delivered without disturbing the active one |
| `Stages.HearsOffer` | crates/ruxmsg-core/src/machine.rs:1142-1163 | reading an offer takes the pair from offered to answered |
| `Stages.WinnerIgnores` | crates/ruxmsg-core/src/machine.rs:1126-1178 | the winner reads the loser's stale offer and nothing moves |
| `Stages.ResponderSwitches` | crates/ruxmsg-core/src/machine.rs:845-1067 | reading the initiator's confirmation promotes the responder while the initiator's contents in flight stay readable |
| `Stages.InitiatorSwitches` | crates/ruxmsg-core/src/machine.rs:835-1067 | reading the responder's confirmation puts both on one session; an offer made meanwhile comes next |
| `LocalStages.SecondTakes` | crates/ruxmsg-core/src/machine.rs:1277-1307 | reading DATA delivers the next content in flight on whichever session it belongs to |
| `LocalStages.NothingNewYet` | crates/ruxmsg-core/src/machine.rs:1048-1054 | while the initiator is behind, nothing reaches the responder on its new session |
| `SystemRuns.StepHolds` | crates/ruxmsg-core/src/machine.rs:357-383 | every action of the two-engine system keeps the joint invariant |
| `SystemRuns.LosslessRekey` | crates/ruxmsg-core/src/machine.rs:1032-1307 | at every moment of every run of two engines, under any interleaving without a HandshakeFrame, HandshakeTotal or Drain timeout, what each side delivered is a prefix, in order and exactly once, of what the other encrypted, and all of it once nothing is in flight |
| `SystemRuns.SessionAgreement` | crates/ruxmsg-core/src/machine.rs:222-861 | at every moment of every run, whenever both are established they share one session with mirrored directions and keys, or one has promoted as responder, its SESSION_CONFIRM is unread and it superseded the other's active session |
| `SystemRuns.AgreementIsExclusive` | crates/ruxmsg-core/src/machine.rs:845-861 | those cases exclude one another |
| `Glare.GlareConverges` | crates/ruxmsg-core/src/machine.rs:1126-1186 | from two Active engines with nothing in flight, if both request a rekey every delivery order ends after exactly eight deliveries, both Active on one new session whose initiator is the greater identity, one RekeyStarted and one RekeyCompleted each and no failure |
| `FirstHandshake.HandshakeCompletes` | crates/ruxmsg-core/src/machine.rs:477-1030 | two new engines whose users approve when asked are both established on one session after exactly nine deliveries and approvals, in whatever order, and until then one more is always possible |
| `FirstHandshake.WillingStep` | crates/ruxmsg-core/src/machine.rs:722-1002 | each delivery or approval lowers the number still to come by one |
| `Glare.DeliveriesCount` | crates/ruxmsg-core/src/machine.rs:1126-1186 | each delivery of a glare lowers the number still to come by one |
| `Parting.TimeoutParts` | crates/ruxmsg-core/src/machine.rs:441-473 | after a HandshakeFrame or HandshakeTotal timeout of either side's rekey, at any moment of any run and with anything in flight, no side ends, and once everything in flight has been read both are established, on one session if and only if it was not the initiator's timeout with its run at ConfirmResp |
| `Parting.PartedForGood` | crates/ruxmsg-core/src/machine.rs:1109-1186 | sides that such a timeout has parted never share a session again, over any run with any input and any timeout |
| `Parting.AccountStep` | crates/ruxmsg-core/src/machine.rs:646-1307 | each delivery after a rekey timeout keeps the account of where the two sides stand: one goes on as if nothing had happened to the other, both are back in step, their answers have crossed, whatever is said leads nowhere, or they have parted |
| `Parting.FirstMeetsConfirmation` | crates/ruxmsg-core/src/machine.rs:1109-1122 | an initiator that gave up drops the responder's confirmation, and from then on the two build on different sessions |
| `Parting.SecondMeetsOffer` | crates/ruxmsg-core/src/machine.rs:1142-1163 | a loser of a glare that gave up answers the winner's offer as if it had not, and the handshake goes on |
| `Estrangement.StaysAloof` | crates/ruxmsg-core/src/machine.rs:357-383 | an engine with no run or an unanswered offer, given any input but a frame that answers it or offers on its session, stays on its session, or ends, and speaks of its own session only |
| `Estrangement.NeverAgain` | crates/ruxmsg-core/src/machine.rs:1095-1186 | two engines on different sessions with nothing under way that builds on the other's never share a session, over any run with any input and any timeout |
| `Stragglers.GivesUp` | crates/ruxmsg-core/src/machine.rs:441-461 | a handshake timeout in an established engine drops the run, reports it, grants late frames and touches no session |
| `Stragglers.RunMutters` | crates/ruxmsg-core/src/machine.rs:722-863 | a rekey run that meets a HELLO or AUTH of another attempt goes on in its role or fails, and without a countersignature never confirms |
| `Stragglers.DataStaysPut` | crates/ruxmsg-core/src/machine.rs:1277-1307 | genuine DATA of whatever session is delivered by the session it belongs to or rejected, and never ends the connection |
| `Occurrences.GlareHappens` | crates/ruxmsg-core/src/machine.rs:1126-1186 | for any two identities and entropy sources there is a run to a glare and through its first n deliveries, up to all eight |
| `Occurrences.PartingHappens` | crates/ruxmsg-core/src/machine.rs:441-461 | for any two identities and entropy sources there is a run that a HandshakeFrame timeout parts |
| `EndToEnd.SentIsHanded` | crates/ruxmsg-core/src/machine.rs:1241-1275 | at every moment of every run of two engines what a side has encrypted is exactly the admissible content it was given while established |
| `EndToEnd.EndToEndDelivery` | crates/ruxmsg-core/src/machine.rs:1032-1307 | end to end: what each side has delivered is a prefix, in order and exactly once, of what the other was given while it could send, and all of it once nothing is in flight |
| `EndToEnd.UsersCompareOneHash` | crates/ruxmsg-core/src/machine.rs:884-924 | in every run, while neither side has ended, two users who were asked were asked about one hash, each about the other identity; once both are established both approved, and their sessions come down from the handshake of that hash |
| `EndToEnd.ComparedHashIsTheSessions` | crates/ruxmsg-core/src/machine.rs:884-1030 | after a first handshake the hash in the shared session's id is the one both users compared |
| `Deadlines.EffectsMirrorDeadlines` | crates/ruxmsg-core/src/machine.rs:387-473 | following the timer effects of any input leaves exactly the armed ids in order, an id that fired or was cancelled is never armed again, every deadline is set for the time its kind allows, and CloseTransport is the last effect exactly when the engine ended |
| `Deadlines.RunsMirrorDeadlines` | crates/ruxmsg-core/src/machine.rs:387-473 | the same at every moment of every run of an engine |
| `Deadlines.StaleTimeout` | crates/ruxmsg-core/src/machine.rs:441-445 | a timeout of an id that is not armed changes nothing and emits nothing |
| `Driver.HeldForItsTime` | crates/ruxmsg-net/src/lib.rs:387-392 | when effects have been carried out at some moment, exactly these are held: what they set and did not cancel afterwards, due the set time after that moment, and what was held before with the time it had, unless cancelled |
| `Driver.ReplayDueIds` | crates/ruxmsg-net/src/lib.rs:387-392 | with the times left out the list follows the timers as the engine expects |
| `Driver.Task.constructor` | crates/ruxmsg-net/src/lib.rs:616-650 | a new task holds no deadline, has written and told nothing, and mirrors its engine |
| `Driver.Task.Process` | crates/ruxmsg-net/src/lib.rs:378-424 | effects are performed in order: the list is that of their timers with their times; while nothing fails every frame is written and all news told, and from the first failure on nothing more; the permit goes with Established or Closed |
| `Driver.Task.Apply` | crates/ruxmsg-net/src/lib.rs:361-376 | after every apply the driver's ids are the engine's, a lost transport or vanished consumer has closed the connection, and while it goes on every deadline has its time, every frame of the input was written and all its news told |
| `Driver.Task.GiveUp` | crates/ruxmsg-net/src/lib.rs:365-375 | a lost transport becomes TransportClosed, a vanished consumer a local close, and without a failure nothing happens |
| `Driver.Task.Fire` | crates/ruxmsg-net/src/lib.rs:355-358 | a fired deadline comes off the list and its timeout is applied; one that an earlier one of the batch cancelled changes nothing |
| `Driver.Task.FireDue` | crates/ruxmsg-net/src/lib.rs:343-359 | the timeouts given to the engine are exactly those due by now, the earliest first; none of these is held or armed afterwards; what is not due is held with its time exactly if the engine still has it armed |
| `Driver.Collect` | crates/ruxmsg-net/src/lib.rs:346-353 | what is due is collected, each deadline as often as it is listed, the earliest first |
| `Engine.LiveSession.constructor` | crates/ruxmsg-core/src/machine.rs:222-246 | a session is built with mirrored directions and fresh objects |
| `Engine.Retain` | crates/ruxmsg-core/src/machine.rs:396-405 | keeps the deadlines of other kinds and reports the rest, in order |
| `Engine.Engine.constructor` | crates/ruxmsg-core/src/machine.rs:301-322 | a new engine is Idle with nothing armed |
| `Engine.Engine.SetRekeyMessageLimit` | crates/ruxmsg-core/src/machine.rs:326-328 | the limit is at least one |
| `Engine.Engine.ArmedDeadlines` | crates/ruxmsg-core/src/machine.rs:352-355 | at most four deadlines are armed in a valid engine |
| `Engine.Engine.HandleInput` | crates/ruxmsg-core/src/machine.rs:357-383 | handle does what the transition function says, returns its effects and keeps the two sessions' objects apart |
| `Engine.Engine.Arm` | crates/ruxmsg-core/src/machine.rs:387-394 | arming replaces the deadline of that kind under a new id |
| `Engine.Engine.Cancel` | crates/ruxmsg-core/src/machine.rs:396-405 | cancelling removes and reports every deadline of that kind |
| `Engine.Engine.CancelAll` | crates/ruxmsg-core/src/machine.rs:407-411 | every deadline is reported, in order |
| `Engine.Engine.RearmFrameDeadline` | crates/ruxmsg-core/src/machine.rs:416-439 | refines the per-frame deadline policy |
| `Engine.Engine.OnTimeout` | crates/ruxmsg-core/src/machine.rs:441-473 | refines the timeout transition |
| `Engine.Engine.Start` | crates/ruxmsg-core/src/machine.rs:477-503 | refines the start transition |
| `Engine.Engine.FreshKeys` | crates/ruxmsg-core/src/machine.rs:505-513 | takes two consecutive draws |
| `Engine.Engine.StartInitiatorRun` | crates/ruxmsg-core/src/machine.rs:515-564 | refines the initiator's start |
| `Engine.Engine.StartResponderRun` | crates/ruxmsg-core/src/machine.rs:566-619 | refines the responder's start |
| `Engine.Engine.OnFrame` | crates/ruxmsg-core/src/machine.rs:623-644 | refines dispatch by phase and type |
| `Engine.Engine.OnFrameHandshaking` | crates/ruxmsg-core/src/machine.rs:646-663 | refines frames before Established |
| `Engine.Engine.AcceptFirstCommit` | crates/ruxmsg-core/src/machine.rs:665-676 | refines acceptance of the first COMMIT |
| `Engine.Engine.DriveRun` | crates/ruxmsg-core/src/machine.rs:678-689 | takes the run out first, so an error discards it |
| `Engine.Engine.CheckRemoteHello` | crates/ruxmsg-core/src/machine.rs:691-720 | refines the checks on a remote HELLO, in order |
| `Engine.Engine.StepRun` | crates/ruxmsg-core/src/machine.rs:722-863 | refines the step of a run |
| `Engine.Engine.StepHello` | crates/ruxmsg-core/src/machine.rs:729-741 | refines the initiator's HELLO step |
| `Engine.Engine.StepReveal` | crates/ruxmsg-core/src/machine.rs:743-760 | refines the responder's reveal step |
| `Engine.Engine.StepAuthResp` | crates/ruxmsg-core/src/machine.rs:774-796 | refines the initiator's AUTH step |
| `Engine.Engine.StepAuthInit` | crates/ruxmsg-core/src/machine.rs:798-833 | refines the responder's AUTH step |
| `Engine.Engine.StepConfirmResp` | crates/ruxmsg-core/src/machine.rs:835-843 | refines the initiator's confirmation step |
| `Engine.Engine.StepConfirmInit` | crates/ruxmsg-core/src/machine.rs:845-861 | refines the responder's confirmation step |
| `Engine.Engine.AfterHellos` | crates/ruxmsg-core/src/machine.rs:884-924 | refines what follows both HELLOs |
| `Engine.Engine.AfterApproval` | crates/ruxmsg-core/src/machine.rs:927-971 | refines what follows approval |
| `Engine.Engine.OnSas` | crates/ruxmsg-core/src/machine.rs:975-1002 | refines the user's decision |
| `Engine.Engine.CompleteInitial` | crates/ruxmsg-core/src/machine.rs:1006-1030 | refines completion of the initial handshake, with a fresh session |
| `Engine.Engine.CompleteRekey` | crates/ruxmsg-core/src/machine.rs:1032-1067 | refines completion of a rekey; the old session object drains |
| `Engine.Engine.BeginRekey` | crates/ruxmsg-core/src/machine.rs:1071-1093 | refines the start of a rekey |
| `Engine.Engine.OnRekeyFrame` | crates/ruxmsg-core/src/machine.rs:1095-1140 | refines REKEY and SESSION_CONFIRM frames |
| `Engine.Engine.RekeyDriven` | crates/ruxmsg-core/src/machine.rs:1135-1139 | refines the end of a rekey step: failure, completion or neither |
| `Engine.Engine.OnIncomingCommit` | crates/ruxmsg-core/src/machine.rs:1142-1163 | refines an incoming COMMIT |
| `Engine.Engine.ResolveGlare` | crates/ruxmsg-core/src/machine.rs:1166-1186 | refines glare resolution |
| `Engine.Engine.FailRekey` | crates/ruxmsg-core/src/machine.rs:1190-1211 | refines a failed rekey and touches no session object |
| `Engine.Engine.NoteRekeyRejection` | crates/ruxmsg-core/src/machine.rs:1213-1220 | refines the rejection count |
| `Engine.Engine.FailInitial` | crates/ruxmsg-core/src/machine.rs:1222-1237 | refines a failed initial handshake |
| `Engine.Engine.OnSend` | crates/ruxmsg-core/src/machine.rs:1241-1275 | refines sending; only the active sender object changes |
| `Engine.Engine.OnData` | crates/ruxmsg-core/src/machine.rs:1277-1307 | refines receiving; a draining receiver may change even when it fails |
| `Engine.Engine.MaybeTriggerRekey` | crates/ruxmsg-core/src/machine.rs:1309-1313 | refines the message-count trigger |
| `Engine.Engine.OnCloseFrame` | crates/ruxmsg-core/src/machine.rs:1317-1346 | refines CLOSE frames |
| `Engine.Engine.Terminate` | crates/ruxmsg-core/src/machine.rs:1348-1375 | refines termination; no session object is left |

## Left out

- Cryptographic primitives, the key-derivation labels and the SAS word list: ideal terms; the words are represented by the transcript hash they are taken from.
- The general-purpose CBOR library: an encoder written from RFC 8949 and a UTF-8 check written from RFC 3629 stand for it. Only the top-level map is required to be sorted, as in the code.
- ReadSlots: reports one error for every refusal of the map validator, because no caller tells them apart; `CanonicalMap.ValidateMap` keeps the errors of the loops apart and shows that all of them count as malformed.
- Refusal of an invalid identity key encoding when a signature is verified: identities are numbers.
- Overflow of the deadline id counter, and the saturating message, late-frame and rejection counters: natural numbers.
- Zeroization, constant-time comparison and redacted debug output: no functional meaning here.
- Sockets, channels, semaphores, real clocks and write timeouts: time is a parameter, a write or an event delivery fails at any moment the model chooses.
- The moments inside one `apply` or one batch: all deadlines set there count from one `now`.
- The driver's read loop from bytes to engine frames: `Framing` covers the bytes, `Driver` the inputs, and the two meet at decoded frames.
- Secrecy against an active attacker: forged frames appear in `Data`, `EngineInvariants`, `RekeyIsolation`, `SasGating` and `Authenticity`, which hold for any frame, but no confidentiality claim is made.
- `ruxmsg-cli`, `storage.rs`, `display.rs` and the install scripts: user interface and operating-system calls.
- LosslessRekey: claims no progress under loss, because keys of counters that never arrive are never evicted.
