/**
 * What one engine does with the frames of an honest peer: every run of a handshake between two honest
 * engines is determined by what the two sides drew.
 */
module HonestSteps {
  import opened Protocol
  import opened Symbolic
  import opened Data
  import opened Machine
  import opened EngineInvariants

  // ------------------------------------------------------------------ an honest pairing

  /** What one side contributes to a handshake. */
  datatype Half = Half(identity: Identity, secret: Secret, nonce: Nonce)

  datatype Pairing = Pairing(purpose: Purpose, previous: Option<SessionId>, i: Half, r: Half)

  /** Distinct identities and distinct ephemeral secrets. */
  predicate Distinct(i: Half, r: Half) {
    i.identity != r.identity && i.secret != r.secret
  }

  predicate WellPaired(p: Pairing) {
    Distinct(p.i, p.r) && PurposeMatchesPrevious(p.purpose, p.previous.Some?)
  }

  function HelloOf(purpose: Purpose, previous: Option<SessionId>, role: Role, h: Half): HelloPayload {
    HelloPayload(1, purpose, role, h.identity, PublicOf(h.secret), h.nonce, previous)
  }

  function InitiatorHello(p: Pairing): HelloPayload {
    HelloOf(p.purpose, p.previous, Initiator, p.i)
  }

  function ResponderHello(p: Pairing): HelloPayload {
    HelloOf(p.purpose, p.previous, Responder, p.r)
  }

  function TranscriptFor(p: Pairing): Transcript {
    Transcript(p.purpose, 1, p.i.identity, p.r.identity, PublicOf(p.i.secret), PublicOf(p.r.secret),
               p.i.nonce, p.r.nonce, p.previous)
  }

  function KeysFor(p: Pairing): SessionKeys {
    SessionKeys(Agreed({p.i.secret, p.r.secret}), HashOf(TranscriptFor(p)))
  }

  // The frames, in the order they are exchanged.

  function CommitOf(purpose: Purpose, previous: Option<SessionId>, h: Half): CommitPayload {
    CommitPayload(1, purpose, CommitmentTo(HelloOf(purpose, previous, Initiator, h)), previous)
  }

  function Commit(purpose: Purpose, previous: Option<SessionId>, h: Half): Frame {
    Frame(MessageTypeForPurpose(purpose), CommitBody(CommitOf(purpose, previous, h)))
  }

  function Answer(p: Pairing): Frame {
    HelloFrame(ResponderHello(p))
  }

  function RevealFrame(p: Pairing): Frame {
    HelloFrame(InitiatorHello(p))
  }

  function FirstAuth(p: Pairing): Frame {
    Frame(MessageTypeForPurpose(p.purpose),
          AuthBody(AuthPayload(TranscriptFor(p), 0, SignedBy(p.i.identity, HashOf(TranscriptFor(p)), true), None)))
  }

  function SecondAuth(p: Pairing): Frame {
    Frame(MessageTypeForPurpose(p.purpose),
          AuthBody(AuthPayload(TranscriptFor(p), 1, SignedBy(p.i.identity, HashOf(TranscriptFor(p)), true),
                               Some(SignedBy(p.r.identity, HashOf(TranscriptFor(p)), false)))))
  }

  function ConfirmFrom(p: Pairing, role: Role): Frame {
    EncodeConfirm(ConfirmPayload(IdOf(KeysFor(p)), role, MacOf(KeysFor(p), HashOf(TranscriptFor(p)), role.Initiator?)))
  }

  // The runs, step by step.

  function OfferRun(purpose: Purpose, previous: Option<SessionId>, h: Half): Run {
    var hello := HelloOf(purpose, previous, Initiator, h);
    Run(purpose, Initiator, previous, h.secret, hello, Some(HelloFrame(hello)), None, Hello, None, None, None, None,
        None, None)
  }

  function InitiatorAt(p: Pairing, step: Step): Run {
    Run(p.purpose, Initiator, p.previous, p.i.secret, InitiatorHello(p), None, None, step,
        Some(p.r.identity), Some(KeysFor(p).shared), Some(TranscriptFor(p)), Some(KeysFor(p).hash),
        if step.ConfirmResp? then Some(KeysFor(p)) else None, None)
  }

  function AnswerRun(p: Pairing): Run {
    Run(p.purpose, Responder, p.previous, p.r.secret, ResponderHello(p), None,
        Some(CommitOf(p.purpose, p.previous, p.i)), Reveal,
        None, None, None, None, None, None)
  }

  function ResponderAt(p: Pairing, step: Step, early: Option<Frame>): Run {
    AnswerRun(p).(step := step, remoteIdentity := Some(p.i.identity), shared := Some(KeysFor(p).shared),
                  transcript := Some(TranscriptFor(p)), hash := Some(KeysFor(p).hash),
                  keys := if step.ConfirmInit? then Some(KeysFor(p)) else None, early := early)
  }

  /** The half an engine is about to draw. */
  function NextHalf(m: Machine): Half {
    Half(m.identity, FreshSecret(m), FreshNonce(m))
  }

  // ------------------------------------------------------------------ summaries

  predicate SameParty(m: Machine, r: Machine) {
    r.role == m.role && r.identity == m.identity && r.source == m.source && r.draws >= m.draws
  }

  /** One step that sends and reports, moves the run on and leaves the sessions alone. */
  predicate Becomes(m: Machine, r: Machine, run: Option<Run>, sends: seq<Frame>, events: seq<Event>) {
    SameParty(m, r) && r.phase == m.phase && r.run == run && r.active == m.active && r.draining == m.draining
    && Sends(r.out) == Sends(m.out) + sends && Delivers(r.out) == Delivers(m.out)
        && Events(r.out) == Events(m.out) + events
  }

  /** One step that puts a new session in place; what was active drains. */
  predicate Promotes(m: Machine, r: Machine, s: Session, sends: seq<Frame>) {
    SameParty(m, r) && r.phase.Open? && r.run.None? && r.active == Some(s) && r.draining == m.active
    && Sends(r.out) == Sends(m.out) + sends && Delivers(r.out) == Delivers(m.out)
    && Events(r.out) == Events(m.out) + [if m.active.Some? then RekeyCompleted else Established(s.peer)]
  }

  lemma NothingAdded(m: Machine)
    ensures Sends(m.out) + [] == Sends(m.out) && Delivers(m.out) + [] == Delivers(m.out)
        && Events(m.out) + [] == Events(m.out)
  {
  }

  // ------------------------------------------------------------------ starting

  lemma Offers(m: Machine)
    requires m.phase.Open? && m.run.None? && m.active.Some?
    ensures Becomes(m, BeginRekey(m), Some(OfferRun(Purpose.Rekey, ActiveId(m), NextHalf(m))),
                    [Commit(Purpose.Rekey, ActiveId(m), NextHalf(m))], [RekeyStarted])
  {
    hide Arm, RearmFrameDeadline, StartInitiatorRun, FailRekey;
    InitiatorStarts(m, Purpose.Rekey, ActiveId(m));
  }

  lemma OfferDecodes(purpose: Purpose, previous: Option<SessionId>, h: Half)
    requires PurposeMatchesPrevious(purpose, previous.Some?)
    ensures DecodeCommit(Commit(purpose, previous, h)) == Ok(CommitOf(purpose, previous, h))
  {
  }

  /** Answering a COMMIT, whichever way it came. */
  lemma Answers(m: Machine, purpose: Purpose, previous: Option<SessionId>, i: Half, announce: bool)
    requires PurposeMatchesPrevious(purpose, previous.Some?)
    ensures var p := Pairing(purpose, previous, i, NextHalf(m));
            var (r, result) := StartResponderRun(m, CommitOf(purpose, previous, i), announce);
            result == Ok(())
            && Becomes(m, r, Some(AnswerRun(p)), [Answer(p)], if purpose.Rekey? && announce then [RekeyStarted] else [])
  {
    hide Arm, RearmFrameDeadline, StartResponderRun;
    ResponderStarts(m, CommitOf(purpose, previous, i), announce);
    NothingAdded(m);
  }

  /** The first COMMIT of a connection. */
  lemma AnswersFirst(m: Machine, i: Half)
    requires m.phase.Handshaking? && m.run.None?
    ensures var p := Pairing(Initial, None, i, NextHalf(m));
            Becomes(m, OnFrame(m, Commit(Initial, None, i)), Some(AnswerRun(p)), [Answer(p)], [])
  {
    hide StartResponderRun, FailInitial, DriveRun, DecodeCommit;
    OfferDecodes(Initial, None, i);
    Answers(m, Initial, None, i, true);
  }

  /** A rekey COMMIT that names the active session. */
  lemma AnswersRekey(m: Machine, i: Half)
    requires m.phase.Open? && m.run.None? && m.active.Some?
    ensures var p := Pairing(Purpose.Rekey, ActiveId(m), i, NextHalf(m));
            Becomes(m, OnFrame(m, Commit(Purpose.Rekey, ActiveId(m), i)), Some(AnswerRun(p)), [Answer(p)],
                [RekeyStarted])
  {
    hide StartResponderRun, FailRekey, NoteRekeyRejection, DecodeCommit, Terminate;
    OfferDecodes(Purpose.Rekey, ActiveId(m), i);
    Answers(m.(late := 0, rejections := 0), Purpose.Rekey, ActiveId(m), i, true);
  }

  /** Glare: the greater identity ignores the other's COMMIT. */
  lemma GlareWins(m: Machine, own: Half, other: Half)
    requires m.phase.Open? && m.active.Some? && m.run == Some(OfferRun(Purpose.Rekey, ActiveId(m), own))
    requires m.identity > m.active.value.peer
    ensures OnFrame(m, Commit(Purpose.Rekey, ActiveId(m), other)) == m
  {
    hide DecodeCommit, OnIncomingCommit, DriveRun, FailRekey, CompleteRekey, NoteRekeyRejection;
    OfferDecodes(Purpose.Rekey, ActiveId(m), other);
  }

  /** Glare: the other side drops its attempt and answers. */
  lemma GlareLoses(m: Machine, own: Half, other: Half)
    requires m.phase.Open? && m.active.Some? && m.run == Some(OfferRun(Purpose.Rekey, ActiveId(m), own))
    requires m.identity <= m.active.value.peer
    ensures var p := Pairing(Purpose.Rekey, ActiveId(m), other, NextHalf(m));
            Becomes(m, OnFrame(m, Commit(Purpose.Rekey, ActiveId(m), other)), Some(AnswerRun(p)), [Answer(p)], [])
  {
    hide DecodeCommit, StartResponderRun, DriveRun, FailRekey, CompleteRekey, NoteRekeyRejection, Cancel;
    OfferDecodes(Purpose.Rekey, ActiveId(m), other);
    var dropped := Cancel(Cancel(m.(run := None), HandshakeFrame), HandshakeTotal);
    Answers(dropped.(rejections := 0), Purpose.Rekey, ActiveId(m), other, false);
  }

  // ------------------------------------------------------------------ the exchange

  /** The engine is where this pairing puts it: no session yet, or the predecessor active. */
  predicate Hosts(m: Machine, p: Pairing, peer: Identity) {
    WellPaired(p)
    && (if p.purpose.Initial? then m.phase.Handshaking? && m.active.None?
        else m.phase.Open? && m.active.Some? && p.previous == Some(m.active.value.id) && m.active.value.peer == peer)
  }

  lemma HellosDecode(p: Pairing)
    requires WellPaired(p)
    ensures DecodeHello(Answer(p)) == Ok(ResponderHello(p)) && DecodeHello(RevealFrame(p)) == Ok(InitiatorHello(p))
    ensures !DecodeCommit(Answer(p)).Ok? && !DecodeCommit(RevealFrame(p)).Ok?
    ensures TranscriptFromHellos(InitiatorHello(p), ResponderHello(p)) == Ok(TranscriptFor(p))
    ensures DiffieHellman(p.i.secret, PublicOf(p.r.secret)) == Ok(KeysFor(p).shared)
    ensures DiffieHellman(p.r.secret, PublicOf(p.i.secret)) == Ok(KeysFor(p).shared)
  {
    AgreementCommutes(p.r.secret, p.i.secret);
  }

  /** The result of a run step inside an engine whose phase decides who completes it. */
  lemma Continues(m: Machine, run: Run, f: Frame, next: Run, sends: seq<Frame>)
    requires m.run == Some(run) && !f.messageType.Close? && !f.messageType.Data?
    requires m.phase.Handshaking? || (m.phase.Open? && !f.messageType.Handshake?)
    requires m.phase.Open? && run.role.Initiator? && run.step.Hello? && f.messageType.Rekey? ==> DecodeCommit(f).Err?
    requires var taken := m.(run := None);
             var s := StepRun(taken, run, f);
             s.result == Ok(None) && s.run == next && Becomes(taken, s.machine, None, sends, [])
    ensures Becomes(m, OnFrame(m, f), Some(next), sends, [])
  {
    hide StepRun, FailInitial, FailRekey, CompleteInitial, CompleteRekey, ResolveGlare;
  }

  /** Once approved, the initiator signs. */
  lemma Signs(m: Machine, p: Pairing, step: Step)
    requires WellPaired(p) && m.run.None? && m.identity == p.i.identity && (step.Sas? || step.Hello?)
    ensures var s := AfterApproval(m, InitiatorAt(p, step));
            s.result == Ok(None) && s.run == InitiatorAt(p, AuthResp) && Becomes(m, s.machine, None, [FirstAuth(p)], [])
  {
    hide RearmFrameDeadline, Talk, Questions;
    NothingAdded(m);
  }

  /** Once approved, a responder that buffered nothing waits for the initiator's AUTH. */
  lemma Awaits(m: Machine, p: Pairing, step: Step)
    requires m.run.None? && (step.Sas? || step.Reveal?)
    ensures var s := AfterApproval(m, ResponderAt(p, step, None));
            s.result == Ok(None) && s.run == ResponderAt(p, AuthInit, None) && Becomes(m, s.machine, None, [], [])
  {
    hide RearmFrameDeadline, Talk, Questions, StepAuthInit;
    NothingAdded(m);
  }

  /** The initiator reads the answer and reveals; a rekey signs at once, an initial handshake asks. */
  lemma ReadsAnswer(m: Machine, p: Pairing)
    requires Hosts(m, p, p.r.identity) && m.run == Some(OfferRun(p.purpose, p.previous, p.i))
        && m.identity == p.i.identity
    ensures var initial := p.purpose.Initial?;
            Becomes(m, OnFrame(m, Answer(p)), Some(InitiatorAt(p, if initial then Sas else AuthResp)),
                    [RevealFrame(p)] + if initial then [] else [FirstAuth(p)], [])
  {
    hide Arm, Cancel, AfterApproval, DecodeHello, OnFrame;
    HellosDecode(p);
    var taken := m.(run := None);
    var revealed := Push(taken, Send(RevealFrame(p)));
    Signs(revealed, p, Hello);
    NothingAdded(m);
    var run := OfferRun(p.purpose, p.previous, p.i);
    assert Informed(run.(localHelloFrame := None), p.r.identity, TranscriptFor(p), KeysFor(p).shared)
        == InitiatorAt(p, Hello);
    assert Sends(m.out) + [RevealFrame(p)] + [FirstAuth(p)] == Sends(m.out) + ([RevealFrame(p)] + [FirstAuth(p)]);
    assert [RevealFrame(p)] + [] == [RevealFrame(p)];
    Continues(m, run, Answer(p), InitiatorAt(p, if p.purpose.Initial? then Sas else AuthResp),
              [RevealFrame(p)] + if p.purpose.Initial? then [] else [FirstAuth(p)]);
  }

  /** The responder checks the reveal against the commitment. */
  lemma ReadsReveal(m: Machine, p: Pairing)
    requires Hosts(m, p, p.i.identity) && m.run == Some(AnswerRun(p)) && m.identity == p.r.identity
    ensures Becomes(m, OnFrame(m, RevealFrame(p)),
                    Some(ResponderAt(p, if p.purpose.Initial? then Sas else AuthInit, None)), [], [])
  {
    hide Arm, Cancel, AfterApproval, DecodeHello, OnFrame;
    HellosDecode(p);
    var taken := m.(run := None);
    Awaits(taken, p, Reveal);
    NothingAdded(m);
    assert Informed(AnswerRun(p), p.i.identity, TranscriptFor(p), KeysFor(p).shared) == ResponderAt(p, Reveal, None);
    Continues(m, AnswerRun(p), RevealFrame(p), ResponderAt(p, if p.purpose.Initial? then Sas else AuthInit, None), []);
  }

  lemma AuthsDecode(p: Pairing)
    requires WellPaired(p)
    ensures DecodeAuth(FirstAuth(p)) == Ok(FirstAuth(p).body.auth)
        && DecodeAuth(SecondAuth(p)) == Ok(SecondAuth(p).body.auth)
    ensures VerifyHandshake(FirstAuth(p).body.auth, TranscriptFor(p), KeysFor(p).shared) == Ok(KeysFor(p))
    ensures VerifyHandshake(SecondAuth(p).body.auth, TranscriptFor(p), KeysFor(p).shared) == Ok(KeysFor(p))
    ensures EncodeAuth(SecondAuth(p).body.auth) == Ok(SecondAuth(p))
  {
  }

  /** The responder countersigns. */
  lemma CountersignsStep(m: Machine, p: Pairing)
    requires WellPaired(p) && m.run.None? && m.identity == p.r.identity
    ensures var s := StepAuthInit(m, ResponderAt(p, AuthInit, None), FirstAuth(p));
            s.result == Ok(None) && s.run == ResponderAt(p, ConfirmInit, None)
                && Becomes(m, s.machine, None, [SecondAuth(p)], [])
  {
    hide RearmFrameDeadline, DecodeAuth, EncodeAuth, VerifyHandshake;
    AuthsDecode(p);
    NothingAdded(m);
  }

  lemma Countersigns(m: Machine, p: Pairing)
    requires Hosts(m, p, p.i.identity) && m.run == Some(ResponderAt(p, AuthInit, None)) && m.identity == p.r.identity
    ensures Becomes(m, OnFrame(m, FirstAuth(p)), Some(ResponderAt(p, ConfirmInit, None)), [SecondAuth(p)], [])
  {
    hide StepAuthInit, OnFrame;
    CountersignsStep(m.(run := None), p);
    Continues(m, ResponderAt(p, AuthInit, None), FirstAuth(p), ResponderAt(p, ConfirmInit, None), [SecondAuth(p)]);
  }

  /** The AUTH that overtakes the local decision waits. */
  lemma Buffers(m: Machine, p: Pairing)
    requires Hosts(m, p, p.i.identity) && p.purpose.Initial? && m.run == Some(ResponderAt(p, Sas, None))
    ensures Becomes(m, OnFrame(m, FirstAuth(p)), Some(ResponderAt(p, Sas, Some(FirstAuth(p)))), [], [])
  {
    hide OnFrame;
    NothingAdded(m);
    Continues(m, ResponderAt(p, Sas, None), FirstAuth(p), ResponderAt(p, Sas, Some(FirstAuth(p))), []);
  }

  /** The initiator checks the countersignature and confirms. */
  lemma Confirms(m: Machine, p: Pairing)
    requires Hosts(m, p, p.r.identity) && m.run == Some(InitiatorAt(p, AuthResp)) && m.identity == p.i.identity
    ensures Becomes(m, OnFrame(m, SecondAuth(p)), Some(InitiatorAt(p, ConfirmResp)), [ConfirmFrom(p, Initiator)], [])
  {
    hide RearmFrameDeadline, DecodeAuth, VerifyHandshake, OnFrame;
    AuthsDecode(p);
    NothingAdded(m);
    Continues(m, InitiatorAt(p, AuthResp), SecondAuth(p), InitiatorAt(p, ConfirmResp), [ConfirmFrom(p, Initiator)]);
  }

  // The user's decisions.

  lemma InitiatorApproves(m: Machine, p: Pairing)
    requires Hosts(m, p, p.r.identity) && p.purpose.Initial? && m.run == Some(InitiatorAt(p, Sas))
        && m.identity == p.i.identity
    ensures Becomes(m, OnSas(m, true), Some(InitiatorAt(p, AuthResp)), [FirstAuth(p)], [])
  {
    hide AfterApproval, Cancel;
    Signs(Cancel(m, SasWait).(run := None), p, Sas);
    NothingAdded(m);
  }

  lemma ResponderApproves(m: Machine, p: Pairing)
    requires Hosts(m, p, p.i.identity) && p.purpose.Initial? && m.run == Some(ResponderAt(p, Sas, None))
        && m.identity == p.r.identity
    ensures Becomes(m, OnSas(m, true), Some(ResponderAt(p, AuthInit, None)), [], [])
  {
    hide AfterApproval, Cancel;
    Awaits(Cancel(m, SasWait).(run := None), p, Sas);
    NothingAdded(m);
  }

  lemma ResponderApprovesBuffered(m: Machine, p: Pairing)
    requires Hosts(m, p, p.i.identity) && p.purpose.Initial? && m.identity == p.r.identity
    requires m.run == Some(ResponderAt(p, Sas, Some(FirstAuth(p))))
    ensures Becomes(m, OnSas(m, true), Some(ResponderAt(p, ConfirmInit, None)), [SecondAuth(p)], [])
  {
    hide StepAuthInit, Cancel;
    var taken := Cancel(m, SasWait).(run := None);
    CountersignsStep(taken, p);
    var run := ResponderAt(p, Sas, Some(FirstAuth(p)));
    assert run.(step := AuthInit).(early := None) == ResponderAt(p, AuthInit, None);
    NothingAdded(m);
  }

  // ------------------------------------------------------------------ completion

  /** A rekey session differs from its predecessor: its id contains it. */
  lemma FreshId(p: Pairing)
    requires p.previous.Some?
    ensures IdOf(KeysFor(p)) != p.previous.value
  {
    assert Epoch(IdOf(KeysFor(p))) == 1 + Epoch(p.previous.value);
  }

  lemma Completes(m: Machine, p: Pairing, role: Role, peer: Identity)
    requires Hosts(m, p, peer) && m.run.None?
    ensures var c := Candidate(KeysFor(p), peer, role);
            var r := if p.purpose.Initial? then CompleteInitial(m, c) else CompleteRekey(m, c);
            (p.purpose.Initial? ==> m.draining.None? ==> Promotes(m, r, NewSession(KeysFor(p), role, peer), []))
            && (p.purpose.Rekey? ==> Promotes(m, r, NewSession(KeysFor(p), role, peer), []))
  {
    hide Cancel, Arm, FailRekey;
    NothingAdded(m);
    if p.purpose.Rekey? {
      FreshId(p);
    }
  }

  /** The responder promotes on the initiator's confirmation, before the initiator does. */
  lemma ResponderPromotes(m: Machine, p: Pairing)
    requires Hosts(m, p, p.i.identity) && m.run == Some(ResponderAt(p, ConfirmInit, None))
        && (p.purpose.Initial? ==> m.draining.None?)
    ensures Promotes(m, OnFrame(m, ConfirmFrom(p, Initiator)), NewSession(KeysFor(p), Responder, p.i.identity),
                     [ConfirmFrom(p, Responder)])
  {
    hide CompleteInitial, CompleteRekey, FailInitial, FailRekey, ResolveGlare;
    var taken := m.(run := None);
    var replied := Push(taken, Send(ConfirmFrom(p, Responder)));
    assert DecodeConfirm(ConfirmFrom(p, Initiator)) == Ok(ConfirmFrom(p, Initiator).body.confirm);
    Completes(replied, p, Responder, p.i.identity);
    NothingAdded(replied);
  }

  lemma InitiatorPromotes(m: Machine, p: Pairing)
    requires Hosts(m, p, p.r.identity) && m.run == Some(InitiatorAt(p, ConfirmResp))
        && (p.purpose.Initial? ==> m.draining.None?)
    ensures Promotes(m, OnFrame(m, ConfirmFrom(p, Responder)), NewSession(KeysFor(p), Initiator, p.r.identity), [])
  {
    hide CompleteInitial, CompleteRekey, FailInitial, FailRekey, ResolveGlare;
    var taken := m.(run := None);
    assert DecodeConfirm(ConfirmFrom(p, Responder)) == Ok(ConfirmFrom(p, Responder).body.confirm);
    Completes(taken, p, Initiator, p.r.identity);
  }
}
