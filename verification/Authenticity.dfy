/** A session becomes active only after its peer's signature and confirmation over its own keys have arrived. */
module Authenticity {
  import opened Protocol
  import opened Symbolic
  import opened Data
  import opened Machine
  import opened EngineInvariants

  // ------------------------------------------------------------------ which AUTH and SESSION_CONFIRM are accepted

  /** A readable AUTH of this stage over the run's own transcript. */
  predicate OverTranscript(run: Run, f: Frame, stage: nat) {
    DecodeAuth(f).Ok? && run.transcript == Some(DecodeAuth(f).value.transcript) && DecodeAuth(f).value.stage == stage
  }

  /** The frame carries this signer's signature over the hash, in that role. */
  predicate CarriesSignature(f: Frame, signer: Identity, hash: Hash, initiator: bool) {
    f.body.AuthBody? && f.body.auth.transcript == hash.transcript
    && if initiator then f.body.auth.initiatorSignature == SignedBy(signer, hash, true)
       else f.body.auth.responderSignature == Some(SignedBy(signer, hash, false))
  }

  /** Everything that is signed by now is signed by the one the transcript names. */
  predicate Authentic(run: Run, f: Frame) {
    run.transcript.Some?
    && var t := run.transcript.value;
    OverTranscript(run, f, if run.role.Initiator? then 1 else 0)
    && CarriesSignature(f, t.initiatorIdentity, HashOf(t), true)
    && (run.role.Initiator? ==> CarriesSignature(f, t.responderIdentity, HashOf(t), false))
  }

  /** What goes back for an authentic AUTH: the initiator confirms, the responder countersigns. */
  function ReplyTo(run: Run, f: Frame): Frame
    requires run.transcript.Some? && run.shared.Some? && Authentic(run, f)
  {
    var t := run.transcript.value;
    var keys := SessionKeys(run.shared.value, HashOf(t));
    if run.role.Initiator? then
      Frame(SessionConfirm, ConfirmBody(ConfirmPayload(IdOf(keys), Initiator, MacOf(keys, HashOf(t), true))))
    else
      Frame(MessageTypeForPurpose(t.purpose), AuthBody(AuthPayload(t, 1, f.body.auth.initiatorSignature,
          Some(SignedBy(t.responderIdentity, HashOf(t), false)))))
  }

  /**
   * At both AUTH steps the run goes on exactly if the AUTH is authentic, and then sends one frame. Otherwise it
   * fails and sends nothing; a false signature over the right transcript fails as such.
   */
  lemma SignaturesDecide(m: Machine, run: Run, f: Frame)
    requires Running(m, run) && (run.step.AuthInit? || run.step.AuthResp?)
    ensures run.transcript.Some? && run.shared.Some?
    ensures var s := StepRun(m, run, f);
            if Authentic(run, f) then
              s.result == Ok(None) && s.run == Confirming(run)
              && Sends(s.machine.out) == Sends(m.out) + [ReplyTo(run, f)]
            else
              s.result.Err? && s.machine == m
              && (if OverTranscript(run, f, if run.role.Initiator? then 1 else 0) then s.result == Err(SignatureInvalid)
                  else f.body.Unreadable? || s.result == Err(InvalidHandshake))
  {
    hide RearmFrameDeadline, Running, Sends, Talk, Delivers, Events, Questions, Replay, Timely;
    AuthRun(m, run);
  }

  lemma AuthRun(m: Machine, run: Run)
    requires Running(m, run) && (run.step.AuthInit? || run.step.AuthResp?)
    ensures run.transcript.Some? && run.shared.Some? && run.hash == Some(HashOf(run.transcript.value))
    ensures run.role.Initiator? <==> run.step.AuthResp?
    ensures run.role.Responder? ==> run.transcript.value.responderIdentity == m.identity
    ensures run.transcript.value.cipherSuite == 1
        && PurposeMatchesPrevious(run.transcript.value.purpose, run.transcript.value.previous.Some?)
  {
    hide Tidy, TableOf;
  }

  /** The peer's confirmation of these keys. */
  predicate CarriesMac(f: Frame, keys: SessionKeys, role: Role) {
    f.messageType.SessionConfirm?
    && f.body == ConfirmBody(ConfirmPayload(IdOf(keys), role, MacOf(keys, keys.hash, role.Initiator?)))
  }

  /**
   * At both confirmation steps the run completes exactly on the peer's confirmation of its own keys; the
   * responder then sends its own. Otherwise it fails and sends nothing.
   */
  lemma MacsDecide(m: Machine, run: Run, f: Frame)
    requires Running(m, run) && (run.step.ConfirmInit? || run.step.ConfirmResp?)
    ensures run.keys.Some? && run.remoteIdentity.Some?
    ensures var s, keys := StepRun(m, run, f), run.keys.value;
            if CarriesMac(f, keys, Opposite(run.role)) then
              s.result == Ok(Some(Candidate(keys, run.remoteIdentity.value, run.role)))
              && Sends(s.machine.out) == Sends(m.out) + if run.role.Initiator? then [] else
                [Frame(SessionConfirm, ConfirmBody(ConfirmPayload(IdOf(keys), Responder,
                    MacOf(keys, keys.hash, false))))]
            else
              s.result.Err? && s.machine == m
              && ((f.messageType.SessionConfirm? && f.body.Unreadable?) || s.result == Err(ConfirmationInvalid))
  {
    hide Running, Push;
    ConfirmingRun(m, run);
    var keys := run.keys.value;
    PushedFrame(m, Frame(SessionConfirm, ConfirmBody(ConfirmPayload(IdOf(keys), Responder,
        MacOf(keys, keys.hash, false)))));
  }

  lemma ConfirmingRun(m: Machine, run: Run)
    requires Running(m, run) && (run.step.ConfirmInit? || run.step.ConfirmResp?)
    ensures run.keys.Some? && run.remoteIdentity.Some? && run.hash == Some(run.keys.value.hash)
    ensures run.role.Initiator? <==> run.step.ConfirmResp?
  {
    hide Tidy, TableOf;
  }

  lemma PushedFrame(m: Machine, f: Frame)
    ensures Sends(Push(m, Send(f)).out) == Sends(m.out) + [f]
  {
  }

  // ------------------------------------------------------------------ what has arrived

  ghost predicate Signed(heard: seq<Frame>, signer: Identity, hash: Hash, initiator: bool) {
    exists f :: f in heard && CarriesSignature(f, signer, hash, initiator)
  }

  ghost predicate Confirmed(heard: seq<Frame>, keys: SessionKeys, role: Role) {
    exists f :: f in heard && CarriesMac(f, keys, role)
  }

  function RoleOf(s: Session): Role {
    if s.sender.direction == InitiatorToResponder then Initiator else Responder
  }

  /** The transcript names these two, in their roles. */
  predicate Between(t: Transcript, own: Identity, role: Role, peer: Identity) {
    own != peer
    && if role.Initiator? then t.initiatorIdentity == own && t.responderIdentity == peer
       else t.initiatorIdentity == peer && t.responderIdentity == own
  }

  /** The session's peer has signed its transcript and confirmed its keys. */
  ghost predicate Trusted(heard: seq<Frame>, own: Identity, s: Session) {
    s.id.IdOf? && Between(s.id.keys.hash.transcript, own, RoleOf(s), s.peer)
    && Signed(heard, s.peer, s.id.keys.hash, RoleOf(s).Responder?)
    && Confirmed(heard, s.id.keys, Opposite(RoleOf(s)))
  }

  /** A run has keys only once its peer has signed; a buffered AUTH has arrived. */
  ghost predicate TrustedRun(heard: seq<Frame>, run: Run) {
    (run.early.Some? ==> run.early.value in heard)
    && (run.keys.Some? ==>
          run.remoteIdentity.Some? && Signed(heard, run.remoteIdentity.value, run.keys.value.hash, run.role.Responder?))
  }

  /** The run's ephemeral and nonce are two consecutive draws, and no later draw repeats them. */
  predicate OwnDraws(m: Machine) {
    m.run.Some? ==>
      var run := m.run.value;
      run.ephemeral == Secret(m.source, run.ephemeral.draw)
      && run.localHello.nonce == Nonce(m.source, run.ephemeral.draw + 1) && run.ephemeral.draw + 2 <= m.draws
  }

  /** A run is the one there was, or made of draws that had not been taken. */
  predicate DrawsOn(m: Machine, r: Machine) {
    r.source == m.source && m.draws <= r.draws
    && (r.run.Some? ==>
          m.draws <= r.run.value.ephemeral.draw
          || (m.run.Some? && r.run.value.ephemeral == m.run.value.ephemeral
              && r.run.value.localHello == m.run.value.localHello))
  }

  ghost predicate Trusts(heard: seq<Frame>, m: Machine) {
    OwnDraws(m) && (m.run.Some? ==> TrustedRun(heard, m.run.value))
    && (m.active.Some? ==> Trusted(heard, m.identity, m.active.value))
    && (m.draining.Some? ==> Trusted(heard, m.identity, m.draining.value))
  }

  lemma TrustsMore(heard: seq<Frame>, f: Frame, m: Machine)
    requires Trusts(heard, m)
    ensures Trusts(heard + [f], m)
  {
    hide CarriesSignature, CarriesMac, Between;
    forall g | g in heard
      ensures g in heard + [f]
    {
    }
  }

  // ------------------------------------------------------------------ steps that trust nobody new

  predicate SameName(s: Option<Session>, t: Option<Session>) {
    t.None? || (s.Some? && t.value.id == s.value.id && t.value.peer == s.value.peer
                && t.value.sender.direction == s.value.sender.direction)
  }

  /** Sessions are the ones there were, and a run is the one there was or has nothing to trust yet. */
  predicate Carries(m: Machine, r: Machine) {
    r.identity == m.identity && SameName(m.active, r.active) && SameName(m.draining, r.draining)
    && DrawsOn(m, r) && (OwnDraws(m) ==> OwnDraws(r))
    && (r.run == m.run || r.run.None? || (r.run.value.keys.None? && r.run.value.early.None?))
  }

  ghost predicate KeepsTrust(heard: seq<Frame>, m: Machine, r: Machine) {
    r.identity == m.identity && DrawsOn(m, r) && Trusts(heard, r)
  }

  lemma CarriesTrust(heard: seq<Frame>, m: Machine, r: Machine)
    requires Trusts(heard, m) && Carries(m, r)
    ensures KeepsTrust(heard, m, r)
  {
    hide Signed, Confirmed, Between;
  }

  lemma TerminateCarries(m: Machine, cause: CloseCause, notifyPeer: Option<CloseReason>)
    ensures Carries(m, Terminate(m, cause, notifyPeer))
  {
    hide CancelAll;
  }

  lemma FailInitialCarries(m: Machine, error: Error)
    ensures Carries(m, FailInitial(m, error))
  {
    hide Terminate, Carries;
    TerminateCarries(m, SasDeclined, Some(AuthenticationFailure));
    TerminateCarries(m, Unauthentic, Some(AuthenticationFailure));
    TerminateCarries(m, Unauthentic, Some(IdentityChanged));
    TerminateCarries(m, ProtocolViolation, Some(ProtocolError));
  }

  lemma FailRekeyCarries(m: Machine, error: Error)
    ensures Carries(m, FailRekey(m, error))
  {
    hide Cancel, Arm;
  }

  lemma BeginRekeyCarries(m: Machine)
    ensures Carries(m, BeginRekey(m))
  {
    hide Arm, RearmFrameDeadline, FailRekey, StartInitiatorRun;
    if m.active.Some? {
      InitiatorStarts(m, Purpose.Rekey, ActiveId(m));
    }
  }

  lemma IncomingCommitCarries(m: Machine, commit: CommitPayload, announce: bool)
    ensures Carries(m, OnIncomingCommit(m, commit, announce))
  {
    hide Arm, RearmFrameDeadline, FailRekey, StartResponderRun;
    if NamesActive(m, commit) {
      ResponderStarts(m.(rejections := 0), commit, announce);
    }
  }

  lemma TriggerCarries(m: Machine)
    ensures Carries(m, MaybeTriggerRekey(m))
  {
    hide BeginRekey;
    BeginRekeyCarries(m);
  }

  lemma CarriesTwice(m: Machine, n: Machine, r: Machine)
    requires Carries(m, n) && Carries(n, r)
    ensures Carries(m, r)
  {
  }

  lemma SendCarries(m: Machine, content: seq<byte>)
    ensures Carries(m, OnSend(m, content))
  {
    hide MaybeTriggerRekey, Terminate, SealedFrame, Carries;
    SelfCarries(m);
    TerminateCarries(m, ProtocolViolation, Some(ProtocolError));
    if |content| <= MAX_CONTENT && m.active.Some? && m.phase.Open? {
      var sender := m.active.value.sender;
      if EncryptError(sender, content).None? {
        var next := m.(active := Some(m.active.value.(sender := AfterEncrypt(sender))), messages := m.messages + 1);
        var sent := Push(next, Send(SealedFrame(sender, content)));
        WroteCarries(m, sent);
        TriggerCarries(sent);
        CarriesTwice(m, sent, MaybeTriggerRekey(sent));
      }
    }
    OutCarries(m);
  }

  lemma SelfCarries(m: Machine)
    ensures Carries(m, m)
  {
  }

  lemma OutCarries(m: Machine)
    ensures forall e :: Carries(m, Push(m, e))
  {
  }

  lemma WroteCarries(m: Machine, r: Machine)
    requires m.active.Some? && r.active.Some? && r.active.value == m.active.value.(sender := r.active.value.sender)
    requires r.active.value.sender.direction == m.active.value.sender.direction
    requires r.identity == m.identity && r.run == m.run && r.draining == m.draining
    requires r.source == m.source && r.draws == m.draws
    ensures Carries(m, r)
  {
  }

  lemma DataCarries(m: Machine, f: Frame)
    ensures Carries(m, OnData(m, f))
  {
    hide MaybeTriggerRekey, Terminate, Decrypt, Carries;
    SelfCarries(m);
    if m.active.Some? {
      var (n, result) := DecryptActive(m, f);
      ReadCarries(m, n);
      if result.Ok? {
        var took := Push(n.(messages := n.messages + 1), Effect.Deliver(result.value));
        ReadCarries(m, took);
        TriggerCarries(took);
        CarriesTwice(m, took, MaybeTriggerRekey(took));
      } else {
        UndecryptedCarries(n, f, result.error);
        CarriesTwice(m, n, OnData(m, f));
      }
    }
  }

  /** A receiver moved on. */
  lemma ReadCarries(m: Machine, r: Machine)
    requires r.identity == m.identity && r.run == m.run && r.active.Some? == m.active.Some?
        && r.draining.Some? == m.draining.Some? && r.source == m.source && r.draws == m.draws
    requires m.active.Some? ==> r.active.value == m.active.value.(receiver := r.active.value.receiver)
    requires m.draining.Some? ==> r.draining.value == m.draining.value.(receiver := r.draining.value.receiver)
    ensures Carries(m, r)
  {
  }

  lemma UndecryptedCarries(m: Machine, f: Frame, error: Error)
    ensures Carries(m, OnUndecrypted(m, f, error))
  {
    hide Terminate, Decrypt, Carries;
    var (n, content) := DecryptDraining(m, f);
    ReadCarries(m, n);
    TerminateCarries(n, ProtocolViolation, Some(ProtocolError));
    OutCarries(n);
    CarriesTwice(m, n, OnUndecrypted(m, f, error));
  }

  lemma TimeoutCarries(m: Machine, id: nat)
    ensures Carries(m, OnTimeout(m, id))
  {
    hide Terminate, FailRekey, BeginRekey, Removed, KindOf, Carries;
    SelfCarries(m);
    if KindOf(m.deadlines, id).Some? {
      var rest := m.(deadlines := Removed(m.deadlines, id));
      TimersCarry(m, rest);
      TerminateCarries(rest, Expired, Some(ResourceLimit));
      TerminateCarries(rest, Expired, Some(AuthenticationFailure));
      FailRekeyCarries(rest, TransportTimeout);
      var due := rest.(blocked := false, late := 0);
      ReadCarries(rest, due);
      BeginRekeyCarries(due);
      CarriesTwice(rest, due, BeginRekey(due));
      SelfCarries(rest);
      DropCarries(rest);
      CarriesTwice(m, rest, OnTimeout(m, id));
    }
  }

  lemma DropCarries(m: Machine)
    ensures Carries(m, m.(draining := None))
  {
  }

  lemma CloseCarries(m: Machine, f: Frame)
    ensures Carries(m, OnCloseFrame(m, f))
  {
    hide Terminate, Cancel, DecodeClose;
    TerminateCarries(m, ProtocolViolation, Some(ProtocolError));
    if DecodeClose(f).Ok? {
      TerminateCarries(m, PeerUnauthenticated(DecodeClose(f).value.reason), None);
    }
  }

  lemma StartCarries(m: Machine)
    ensures Carries(m, StartMachine(m))
  {
    hide Arm, RearmFrameDeadline, FailInitial, StartInitiatorRun;
    var budgeted := Arm(m.(phase := Handshaking), HandshakeTotal, HANDSHAKE_TOTAL_TIMEOUT_SECS);
    InitiatorStarts(budgeted, Initial, None);
  }

  lemma AcceptCommitCarries(m: Machine, f: Frame)
    ensures Carries(m, AcceptFirstCommit(m, f).0)
  {
    hide RearmFrameDeadline, Arm, DecodeCommit;
  }

  lemma GlareCarries(m: Machine, commit: CommitPayload)
    ensures Carries(m, ResolveGlare(m, commit))
  {
    hide OnIncomingCommit, Cancel;
    IncomingCommitCarries(Disarmed(m.(run := None)), commit, false);
  }

  lemma IdleFrameCarries(m: Machine, f: Frame)
    ensures Carries(m, OnRekeyFrameIdle(m, f))
  {
    hide Terminate, OnIncomingCommit, NoteRekeyRejection, DecodeCommit, NamesActive, Carries;
    TerminateCarries(m, ProtocolViolation, Some(ProtocolError));
    BooksCarry(m, m.(late := 0));
    BooksCarry(m, NoteRekeyRejection(m));
    if m.late > 0 {
      BooksCarry(m, m.(late := m.late - 1));
    }
    if DecodeCommit(f).Ok? {
      IncomingCommitCarries(m.(late := 0), DecodeCommit(f).value, true);
      CarriesTwice(m, m.(late := 0), OnIncomingCommit(m.(late := 0), DecodeCommit(f).value, true));
    }
  }

  lemma BooksCarry(m: Machine, r: Machine)
    ensures r == m.(late := r.late, rejections := r.rejections, out := r.out) ==> Carries(m, r)
    ensures Carries(m, NoteRekeyRejection(m))
  {
  }

  // ------------------------------------------------------------------ steps of a run

  /** A step trusts its run further only on what has arrived. */
  ghost predicate StepTrusts(heard: seq<Frame>, identity: Identity, run: Run, s: Stepped) {
    s.machine.identity == identity
    && match s.result
       case Ok(None) =>
         TrustedRun(heard, s.run) && s.run.ephemeral == run.ephemeral && s.run.localHello == run.localHello
       case Ok(Some(c)) => Trusted(heard, identity, NewSession(c.keys, c.role, c.peer))
       case Err(_) => true
  }

  lemma AuthTrusts(heard: seq<Frame>, m: Machine, run: Run, f: Frame)
    requires Running(m, run) && (run.step.AuthInit? || run.step.AuthResp?) && f in heard
    ensures StepTrusts(heard, m.identity, run, StepRun(m, run, f))
  {
    hide StepRun, Tidy, TableOf, Sends;
    SignaturesDecide(m, run, f);
    StepRunKeeps(m, run, f);
    if Authentic(run, f) {
      assert CarriesSignature(f, run.remoteIdentity.value, run.hash.value, run.role.Responder?);
    }
  }

  lemma ConfirmTrusts(heard: seq<Frame>, m: Machine, run: Run, f: Frame)
    requires Running(m, run) && (run.step.ConfirmInit? || run.step.ConfirmResp?) && f in heard
    requires TrustedRun(heard, run)
    ensures StepTrusts(heard, m.identity, run, StepRun(m, run, f))
  {
    hide StepRun, Tidy, TableOf, Sends, Signed, CarriesMac;
    MacsDecide(m, run, f);
    StepRunKeeps(m, run, f);
    if CarriesMac(f, run.keys.value, Opposite(run.role)) {
      assert Confirmed(heard, run.keys.value, Opposite(run.role));
    }
  }

  lemma ApprovalTrusts(heard: seq<Frame>, m: Machine, run: Run)
    requires Approvable(m, run) && TrustedRun(heard, run) && run.keys.None?
    ensures StepTrusts(heard, m.identity, run, AfterApproval(m, run))
  {
    hide RearmFrameDeadline, Tidy, TableOf, StepAuthInit, Signed;
    AfterApprovalKeeps(m, run);
    if run.early.Some? {
      assert Running(m, Approved(run));
      AuthTrusts(heard, m, Approved(run), run.early.value);
    }
  }

  lemma AfterHellosTrusts(heard: seq<Frame>, m: Machine, run: Run, remote: HelloPayload)
    requires Running(m, run) && (run.step.Hello? || run.step.Reveal?)
    requires CheckRemoteHello(m, run, remote, Opposite(run.role)).Ok?
    ensures StepTrusts(heard, m.identity, run, AfterHellos(m, run.(localHelloFrame := None), remote))
  {
    hide AfterApproval, Arm, Cancel, Tidy, TableOf, TableFits, Signed, Trusted;
    AfterHellosKeeps(m, run, remote);
    var hellos := if run.role.Initiator? then (run.localHello, remote) else (remote, run.localHello);
    var transcript := TranscriptFromHellos(hellos.0, hellos.1);
    var shared := DiffieHellman(run.ephemeral, remote.ephemeral);
    if transcript.Ok? && shared.Ok? && run.purpose.Rekey? {
      var informed := Informed(run.(localHelloFrame := None), remote.identity, transcript.value, shared.value);
      RekeyApprovable(m, run, remote, transcript.value, shared.value);
      ApprovalTrusts(heard, m, informed);
    }
  }

  lemma HelloTrusts(heard: seq<Frame>, m: Machine, run: Run, f: Frame)
    requires Running(m, run) && (run.step.Hello? || run.step.Reveal?)
    ensures StepTrusts(heard, m.identity, run, StepRun(m, run, f))
  {
    hide AfterHellos, CheckRemoteHello, DecodeHello, Tidy, TableOf, TableFits, Trusted, TrustedRun;
    if DecodeHello(f).Ok? {
      var remote := DecodeHello(f).value;
      if CheckRemoteHello(m, run, remote, Opposite(run.role)).Ok? {
        if run.step.Hello? {
          var told := Push(m, Send(run.localHelloFrame.value));
          SameCheck(m, told, run, remote);
          AfterHellosTrusts(heard, told, run, remote);
        } else {
          assert run.(localHelloFrame := None) == run;
          AfterHellosTrusts(heard, m, run, remote);
        }
      }
    }
  }

  lemma SameCheck(m: Machine, r: Machine, run: Run, remote: HelloPayload)
    requires r.active == m.active
    ensures CheckRemoteHello(m, run, remote, Opposite(run.role)) == CheckRemoteHello(r, run, remote, Opposite(run.role))
  {
  }

  lemma StepTrustsAll(heard: seq<Frame>, m: Machine, run: Run, f: Frame)
    requires Running(m, run) && TrustedRun(heard, run) && f in heard
    ensures StepTrusts(heard, m.identity, run, StepRun(m, run, f))
  {
    hide StepHello, StepReveal, StepAuthResp, StepAuthInit, StepConfirmResp, StepConfirmInit, Running, Trusted,
      Signed;
    match run.step {
      case Hello => HelloTrusts(heard, m, run, f);
      case Reveal => HelloTrusts(heard, m, run, f);
      case Sas => assert run.keys.None? by { SasHasNoKeys(m, run); }
      case AuthResp => AuthTrusts(heard, m, run, f);
      case AuthInit => AuthTrusts(heard, m, run, f);
      case _ => ConfirmTrusts(heard, m, run, f);
    }
  }

  lemma SasHasNoKeys(m: Machine, run: Run)
    requires Running(m, run) && run.step.Sas?
    ensures run.keys.None?
  {
    hide Tidy, TableOf;
  }

  // ------------------------------------------------------------------ completion

  lemma CompleteInitialTrusts(heard: seq<Frame>, m: Machine, c: Candidate)
    requires m.run.None? && m.draining.None? && Trusted(heard, m.identity, NewSession(c.keys, c.role, c.peer))
    ensures KeepsTrust(heard, m, CompleteInitial(m, c))
  {
    hide Cancel, Arm, Trusted;
  }

  lemma CompleteRekeyTrusts(heard: seq<Frame>, m: Machine, c: Candidate)
    requires Trusts(heard, m) && m.run.None? && Trusted(heard, m.identity, NewSession(c.keys, c.role, c.peer))
    ensures KeepsTrust(heard, m, CompleteRekey(m, c))
  {
    hide Cancel, Arm, FailRekey, Trusted;
    FailRekeyCarries(m, IdentityMismatch);
    CarriesTrust(heard, m, FailRekey(m, IdentityMismatch));
  }

  /** A frame of a run, before or after Established. */
  lemma DrivenTrusts(heard: seq<Frame>, m: Machine, f: Frame)
    requires Valid(m) && m.run.Some? && Trusts(heard, m) && f in heard
    ensures var (r, result) := DriveRun(m, f);
            match result
            case Ok(None) => KeepsTrust(heard, m, r)
            case Ok(Some(c)) => KeepsTrust(heard, m, CompleteRekey(r, c))
                && (m.phase.Handshaking? ==> KeepsTrust(heard, m, CompleteInitial(r, c)))
            case Err(error) => KeepsTrust(heard, m, FailInitial(r, error)) && KeepsTrust(heard, m, FailRekey(r, error))
  {
    hide StepRun, FailInitial, FailRekey, CompleteInitial, CompleteRekey, Tidy, TableOf, TableFits, RunValid,
      TrustedRun, Trusted;
    var taken, run := m.(run := None), m.run.value;
    assert taken.(run := Some(run)) == m;
    StepTrustsAll(heard, taken, run, f);
    DriveRunKeeps(m, f);
    var (r, result) := DriveRun(m, f);
    if result.Err? {
      FailInitialCarries(r, result.error);
      CarriesTrust(heard, r, FailInitial(r, result.error));
      FailRekeyCarries(r, result.error);
      CarriesTrust(heard, r, FailRekey(r, result.error));
    } else if result.value.Some? {
      CompleteRekeyTrusts(heard, r, result.value.value);
      if m.phase.Handshaking? {
        CompleteInitialTrusts(heard, r, result.value.value);
      }
    }
  }

  // ------------------------------------------------------------------ one input

  /** The run taken out after the SAS point. */
  lemma ApproveTrusts(heard: seq<Frame>, m: Machine)
    requires Valid(m) && Trusts(heard, m) && AwaitsUser(m)
    ensures KeepsTrust(heard, m, Approve(Cancel(m, SasWait)))
  {
    hide Cancel, AfterApproval, FailInitial, CompleteInitial, Approvable, Tidy, TableOf, Trusted, TrustedRun;
    SasApprovable(m);
    var taken, run := Cancel(m, SasWait).(run := None), m.run.value;
    AfterApprovalKeeps(taken, run);
    SasRunHasNoKeys(m);
    ApprovalTrusts(heard, taken, run);
    var s := AfterApproval(taken, run);
    if s.result.Err? {
      FailInitialCarries(s.machine, s.result.error);
      CarriesTrust(heard, s.machine, FailInitial(s.machine, s.result.error));
    }
  }

  lemma SasRunHasNoKeys(m: Machine)
    requires Valid(m) && AwaitsUser(m)
    ensures m.run.value.keys.None?
  {
    hide Tidy, TableOf;
  }

  lemma SasTrusts(heard: seq<Frame>, m: Machine, approved: bool)
    requires Valid(m) && Trusts(heard, m)
    ensures KeepsTrust(heard, m, OnSas(m, approved))
  {
    hide Cancel, Approve, Terminate, Valid, Trusts;
    if AwaitsUser(m) {
      ApproveTrusts(heard, m);
      var declined := Cancel(m, SasWait);
      TimersCarry(m, declined);
      TerminateCarries(declined, SasDeclined, Some(AuthenticationFailure));
      CarriesTwice(m, declined, Terminate(declined, SasDeclined, Some(AuthenticationFailure)));
      CarriesTrust(heard, m, Terminate(declined, SasDeclined, Some(AuthenticationFailure)));
    }
  }

  lemma TimersCarry(m: Machine, r: Machine)
    requires OnlyTimers(m, r)
    ensures Carries(m, r)
  {
  }

  lemma HandshakingFrameTrusts(heard: seq<Frame>, m: Machine, f: Frame)
    requires Valid(m) && m.phase.Handshaking? && Trusts(heard, m) && f in heard
    ensures KeepsTrust(heard, m, OnFrameHandshaking(m, f))
  {
    hide Valid, Trusts, Carries, OnCloseFrame, AcceptFirstCommit, DriveRun, FailInitial, CompleteInitial,
      CompleteRekey, FailRekey;
    if f.messageType.Close? {
      CloseCarries(m, f);
      CarriesTrust(heard, m, OnCloseFrame(m, f));
    } else if m.run.None? {
      var (r, accepted) := AcceptFirstCommit(m, f);
      AcceptCommitCarries(m, f);
      CarriesTrust(heard, m, r);
      if accepted.Err? {
        FailInitialCarries(r, accepted.error);
        CarriesTrust(heard, r, FailInitial(r, accepted.error));
      }
    } else {
      DrivenTrusts(heard, m, f);
    }
  }

  lemma RekeyFrameTrusts(heard: seq<Frame>, m: Machine, f: Frame)
    requires Valid(m) && m.phase.Open? && Trusts(heard, m) && f in heard
    ensures KeepsTrust(heard, m, OnRekeyFrame(m, f))
  {
    hide Valid, Trusts, Carries, OnRekeyFrameIdle, ResolveGlare, DriveRun, DecodeCommit, CompleteRekey, FailRekey,
      FailInitial, CompleteInitial;
    IdleFrameCarries(m, f);
    CarriesTrust(heard, m, OnRekeyFrameIdle(m, f));
    if DecodeCommit(f).Ok? {
      GlareCarries(m, DecodeCommit(f).value);
      CarriesTrust(heard, m, ResolveGlare(m, DecodeCommit(f).value));
    }
    if m.run.Some? {
      DrivenTrusts(heard, m, f);
    }
  }

  lemma FrameTrusts(heard: seq<Frame>, m: Machine, f: Frame)
    requires Valid(m) && !m.phase.Ended? && Trusts(heard, m) && f in heard
    ensures KeepsTrust(heard, m, OnFrame(m, f))
  {
    hide Valid, Trusts, Carries, OnFrameHandshaking, OnData, OnCloseFrame, OnRekeyFrame, Terminate;
    TerminateCarries(m, ProtocolViolation, Some(ProtocolError));
    CarriesTrust(heard, m, Terminate(m, ProtocolViolation, Some(ProtocolError)));
    if m.phase.Handshaking? {
      HandshakingFrameTrusts(heard, m, f);
    } else if m.phase.Open? {
      DataCarries(m, f);
      CarriesTrust(heard, m, OnData(m, f));
      CloseCarries(m, f);
      CarriesTrust(heard, m, OnCloseFrame(m, f));
      RekeyFrameTrusts(heard, m, f);
    }
  }

  /** Input that is neither a frame nor a decision brings nobody to trust. */
  lemma LocalCarries(m: Machine, input: Input)
    requires !input.FrameReceived? && !input.SasDecision?
    ensures Carries(m, Handle(m, input))
  {
    hide Carries, Terminate, OnSend, BeginRekey, OnTimeout, StartMachine;
    var cleared := m.(out := []);
    TimersCarry(m, cleared);
    var r := Handle(m, input);
    if !m.phase.Ended? {
      match input {
        case Start => StartCarries(cleared);
        case LocalSend(content) => SendCarries(cleared, content);
        case LocalClose(reason) => TerminateCarries(cleared, Local, Some(reason));
        case RequestRekey => BeginRekeyCarries(cleared);
        case Timeout(id) => TimeoutCarries(cleared, id);
        case TransportClosed => TerminateCarries(cleared, TransportLost, None);
        case Malformed(respond) =>
          TerminateCarries(cleared, ProtocolViolation, if respond then Some(ProtocolError) else None);
      }
      CarriesTwice(m, cleared, r);
    }
  }

  function Hears(heard: seq<Frame>, input: Input): seq<Frame> {
    if input.FrameReceived? then heard + [input.frame] else heard
  }

  /** One input keeps trust to what has arrived, itself included. */
  lemma HandleTrusts(heard: seq<Frame>, m: Machine, input: Input)
    requires Valid(m) && Trusts(heard, m)
    ensures KeepsTrust(Hears(heard, input), m, Handle(m, input))
  {
    hide Valid, Trusts, Carries, OnFrame, OnSas;
    var cleared := m.(out := []);
    TimersCarry(m, cleared);
    CarriesTrust(heard, m, cleared);
    assert Valid(cleared) by {
      StillValid(m);
    }
    if !input.FrameReceived? && !input.SasDecision? {
      LocalCarries(m, input);
      CarriesTrust(heard, m, Handle(m, input));
    } else if !m.phase.Ended? {
      match input {
        case FrameReceived(f) =>
          TrustsMore(heard, f, cleared);
          FrameTrusts(heard + [f], cleared, f);
        case SasDecision(approved) => SasTrusts(heard, cleared, approved);
      }
    } else if input.FrameReceived? {
      TrustsMore(heard, input.frame, cleared);
    }
  }

  lemma StillValid(m: Machine)
    requires Valid(m)
    ensures Valid(m.(out := []))
  {
  }

  // ------------------------------------------------------------------ whole runs

  function FramesOf(inputs: seq<Input>): seq<Frame> {
    if inputs == [] then [] else Hears(FramesOf(inputs[..|inputs| - 1]), inputs[|inputs| - 1])
  }

  lemma {:induction false} HeardEarlier(inputs: seq<Input>, f: Frame) returns (i: nat)
    requires f in FramesOf(inputs)
    ensures i < |inputs| && inputs[i] == FrameReceived(f)
    decreases |inputs|
  {
    var n := |inputs| - 1;
    if inputs[n] == FrameReceived(f) {
      i := n;
    } else {
      i := HeardEarlier(inputs[..n], f);
    }
  }

  lemma {:induction false} RunTrusts(states: seq<Machine>, inputs: seq<Input>, n: nat)
    requires EngineRun(states, inputs) && n <= |inputs|
    ensures Trusts(FramesOf(inputs[..n]), states[n]) && states[n].identity == states[0].identity
  {
    hide Handle, Valid, Trusts;
    if n == 0 {
      NewTrusts(states[0]);
    } else {
      RunTrusts(states, inputs, n - 1);
      ReachableValid(states, inputs, n - 1);
      assert inputs[..n][..n - 1] == inputs[..n - 1];
      HandleTrusts(FramesOf(inputs[..n - 1]), states[n - 1], inputs[n - 1]);
    }
  }

  lemma NewTrusts(m: Machine)
    requires m == NewMachine(m.role, m.identity, m.source, m.limit)
    ensures Trusts([], m)
  {
  }

  /**
   * In every run the active session, whether of the first handshake or of a rekey, is with a peer other than
   * oneself whom the session's own transcript names, and earlier inputs carried that peer's signature over the
   * transcript and that peer's confirmation of the session's keys.
   */
  lemma ActiveIsAuthentic(states: seq<Machine>, inputs: seq<Input>, n: nat) returns (i: nat, j: nat)
    requires EngineRun(states, inputs) && n <= |inputs| && states[n].active.Some?
    ensures var s := states[n].active.value;
            s.id.IdOf? && Between(s.id.keys.hash.transcript, states[0].identity, RoleOf(s), s.peer)
            && i < n && inputs[i].FrameReceived?
            && CarriesSignature(inputs[i].frame, s.peer, s.id.keys.hash, RoleOf(s).Responder?)
            && j < n && inputs[j].FrameReceived?
            && CarriesMac(inputs[j].frame, s.id.keys, Opposite(RoleOf(s)))
  {
    hide CarriesSignature, CarriesMac, Between, FramesOf, Handle;
    RunTrusts(states, inputs, n);
    var s, heard := states[n].active.value, FramesOf(inputs[..n]);
    var f :| f in heard && CarriesSignature(f, s.peer, s.id.keys.hash, RoleOf(s).Responder?);
    i := HeardEarlier(inputs[..n], f);
    var g :| g in heard && CarriesMac(g, s.id.keys, Opposite(RoleOf(s)));
    j := HeardEarlier(inputs[..n], g);
  }

  lemma {:induction false} DrawsGoOn(states: seq<Machine>, inputs: seq<Input>, i: nat, j: nat)
    requires EngineRun(states, inputs) && i <= j <= |inputs|
    ensures DrawsOn(states[i], states[j])
    decreases j
  {
    hide Handle, Valid, Trusts;
    if i < j {
      DrawsGoOn(states, inputs, i, j - 1);
      RunTrusts(states, inputs, j - 1);
      ReachableValid(states, inputs, j - 1);
      HandleTrusts(FramesOf(inputs[..j - 1]), states[j - 1], inputs[j - 1]);
    }
  }

  /**
   * Nothing is drawn twice: in every run of an engine two handshakes, whatever became of the first, have
   * ephemerals and nonces that come from four different draws.
   */
  lemma NothingIsDrawnTwice(states: seq<Machine>, inputs: seq<Input>, i: nat, j: nat)
    requires EngineRun(states, inputs) && i <= j <= |inputs| && states[i].run.Some? && states[j].run.Some?
    ensures var source, a, b := states[0].source, states[i].run.value, states[j].run.value;
            a.ephemeral == Secret(source, a.ephemeral.draw)
            && a.localHello.nonce == Nonce(source, a.ephemeral.draw + 1)
            && b.ephemeral == Secret(source, b.ephemeral.draw)
            && b.localHello.nonce == Nonce(source, b.ephemeral.draw + 1)
            && (a.localHello == b.localHello || a.ephemeral.draw + 2 <= b.ephemeral.draw)
  {
    hide Handle, Valid, FramesOf;
    RunTrusts(states, inputs, i);
    RunTrusts(states, inputs, j);
    DrawsGoOn(states, inputs, 0, i);
    DrawsGoOn(states, inputs, i, j);
  }

  /** Nobody takes part whose signature never arrived. */
  lemma NobodyUnsigned(states: seq<Machine>, inputs: seq<Input>, n: nat, peer: Identity)
    requires EngineRun(states, inputs) && n <= |inputs|
    requires forall i, hash, initiator :: 0 <= i < n && inputs[i].FrameReceived? ==>
               !CarriesSignature(inputs[i].frame, peer, hash, initiator)
    ensures states[n].active.Some? ==> states[n].active.value.peer != peer
  {
    hide CarriesSignature, CarriesMac, Between, Handle;
    if states[n].active.Some? {
      var i, j := ActiveIsAuthentic(states, inputs, n);
    }
  }
}
