/**
 * What every reachable engine keeps: the typestate, the options each step unwraps and the exact table of
 * armed deadlines, with the bounds on deadlines and effects that follow.
 */
module EngineInvariants {
  import opened Protocol
  import opened Symbolic
  import opened Data
  import opened Machine

  // ------------------------------------------------------------------ the invariant

  predicate StepFits(run: Run) {
    if run.role.Initiator? then run.step.Hello? || run.step.Sas? || run.step.AuthResp? || run.step.ConfirmResp?
    else run.step.Reveal? || run.step.Sas? || run.step.AuthInit? || run.step.ConfirmInit?
  }

  predicate HelloFits(identity: Identity, run: Run) {
    var h := run.localHello;
    h.cipherSuite == 1 && h.purpose == run.purpose && h.role == run.role && h.identity == identity
    && h.ephemeral == PublicOf(run.ephemeral) && h.previous == run.previous
    && (run.role.Initiator? ==>
          run.localHelloFrame ==
            if run.step.Hello? then Some(Frame(MessageTypeForPurpose(h.purpose), HelloBody(h))) else None)
    && (run.role.Responder? ==> run.localHelloFrame.None?)
  }

  /**
   * The transcript is of the run's own HELLO and one of a different party with a different ephemeral, each in
   * its place, and the secret is the one agreed with that ephemeral.
   */
  predicate Binds(run: Run, t: Transcript, remote: Identity, shared: SharedSecret) {
    var own := run.localHello;
    var theirs := if run.role.Initiator? then t.responderEphemeral else t.initiatorEphemeral;
    (if run.role.Initiator? then
       t.initiatorIdentity == own.identity && t.responderIdentity == remote
       && t.initiatorEphemeral == own.ephemeral && t.initiatorNonce == own.nonce
     else
       t.responderIdentity == own.identity && t.initiatorIdentity == remote
       && t.responderEphemeral == own.ephemeral && t.responderNonce == own.nonce)
    && remote != own.identity && theirs != own.ephemeral
    && theirs.PublicOf? && shared == Agreed({run.ephemeral, theirs.secret})
  }

  /** Once both HELLOs are known, the transcript binds the run's purpose, predecessor and both identities. */
  predicate TranscriptFits(run: Run) {
    if run.step.Hello? || run.step.Reveal? then
      run.transcript.None? && run.hash.None? && run.shared.None? && run.remoteIdentity.None?
    else
      run.transcript.Some? && run.shared.Some? && run.remoteIdentity.Some?
      && run.hash == Some(HashOf(run.transcript.value))
      && run.transcript.value.cipherSuite == 1 && run.transcript.value.purpose == run.purpose
      && run.transcript.value.previous == run.previous
      && Binds(run, run.transcript.value, run.remoteIdentity.value, run.shared.value)
  }

  predicate KeysFit(run: Run) {
    if run.step.ConfirmResp? || run.step.ConfirmInit? then
      run.shared.Some? && run.hash.Some? && run.keys == Some(SessionKeys(run.shared.value, run.hash.value))
    else run.keys.None?
  }

  /** Every option that the run's step unwraps is present. */
  predicate RunValid(identity: Identity, active: Option<Session>, run: Run) {
    PurposeMatchesPrevious(run.purpose, run.previous.Some?)
    && StepFits(run) && HelloFits(identity, run) && TranscriptFits(run) && KeysFit(run)
    && (run.commit.Some? <==> run.role.Responder?)
    && (run.early.Some? ==> run.role.Responder? && run.step.Sas?)
    && (run.purpose.Rekey? ==>
          active.Some? && run.previous == Some(active.value.id) && !run.step.Sas?
          && (run.remoteIdentity.Some? ==> run.remoteIdentity.value == active.value.peer))
  }

  /** The deadline table, phase by phase. */
  predicate TableFits(t: Table, phase: Phase, run: Option<Run>, draining: bool) {
    match phase
    case Idle => t == NOTHING_ARMED
    case Ended => t == NOTHING_ARMED
    case Handshaking =>
      t == Table(run.None? || FrameBounded(Initial, run.value.step), run.Some? && run.value.step.Sas?,
                 true, false, false)
    case Open =>
      t.frame == t.total == run.Some? && !t.sas && t.drain == draining && (run.None? ==> t.due)
  }

  predicate SessionsFit(active: Session, draining: Option<Session>) {
    draining.Some? ==> draining.value.id != active.id && draining.value.peer == active.peer
  }

  /** The fields each phase uses. */
  predicate Typestate(m: Machine) {
    match m.phase
    case Idle => m.run.None? && m.active.None? && m.draining.None?
    case Ended => m.run.None? && m.active.None? && m.draining.None?
    case Handshaking =>
      m.active.None? && m.draining.None?
      && (if m.run.None? then m.role.Responder?
          else
            m.run.value.purpose.Initial? && m.run.value.role == m.role
            && RunValid(m.identity, m.active, m.run.value))
    case Open =>
      m.active.Some? && SessionsFit(m.active.value, m.draining)
      && (m.run.Some? ==> m.run.value.purpose.Rekey? && RunValid(m.identity, m.active, m.run.value))
  }

  predicate Valid(m: Machine) {
    Tidy(m.deadlines, m.nextDeadline)
    && TableFits(TableOf(m.deadlines), m.phase, m.run, m.draining.Some?)
    && Typestate(m)
  }

  lemma FreshValid(role: Role, identity: Identity, source: nat, limit: nat)
    ensures Valid(NewMachine(role, identity, source, limit))
  {
  }

  predicate AwaitsUser(m: Machine) {
    m.phase.Handshaking? && m.run.Some? && m.run.value.step.Sas?
  }

  // ------------------------------------------------------------------ ends of a run

  lemma TerminateKeeps(m: Machine, cause: CloseCause, notifyPeer: Option<CloseReason>)
    ensures var r := Terminate(m, cause, notifyPeer);
            Valid(r) && r.phase.Ended? && r.deadlines == [] && |r.out| <= |m.out| + |m.deadlines| + 3
  {
    hide CancelAll;
  }

  lemma FailInitialKeeps(m: Machine, error: Error)
    ensures var r := FailInitial(m, error);
            Valid(r) && r.phase.Ended? && |r.out| <= |m.out| + |m.deadlines| + 3
  {
    hide Terminate, Valid;
    TerminateKeeps(m, SasDeclined, Some(AuthenticationFailure));
    TerminateKeeps(m, Unauthentic, Some(AuthenticationFailure));
    TerminateKeeps(m, Unauthentic, Some(IdentityChanged));
    TerminateKeeps(m, ProtocolViolation, Some(ProtocolError));
  }

  /** An open engine whose handshake deadlines may be armed or not. */
  predicate Settling(m: Machine) {
    m.phase.Open? && m.active.Some? && SessionsFit(m.active.value, m.draining)
    && Tidy(m.deadlines, m.nextDeadline) && !TableOf(m.deadlines).sas && TableOf(m.deadlines).drain == m.draining.Some?
  }

  lemma FailRekeyKeeps(m: Machine, error: Error)
    requires Settling(m)
    ensures var r := FailRekey(m, error);
            Valid(r) && r.phase.Open? && r.run.None? && r.active == m.active && r.draining == m.draining
            && |r.out| <= |m.out| + 5
  {
    hide Cancel, Arm, Tidy, TableOf, RunValid;
  }

  lemma NoteKeeps(m: Machine)
    requires Valid(m)
    ensures var r := NoteRekeyRejection(m);
            Valid(r) && r == m.(rejections := r.rejections, out := r.out) && |r.out| <= |m.out| + 1
  {
    hide Tidy, TableOf, RunValid;
  }

  // ------------------------------------------------------------------ steps of a run

  /** The engine with its run taken out. */
  predicate Running(m: Machine, run: Run) {
    m.run.None? && Valid(m.(run := Some(run)))
  }

  predicate CandidateFits(run: Run, c: Candidate) {
    (run.step.ConfirmResp? || run.step.ConfirmInit?)
    && run.keys == Some(c.keys) && run.remoteIdentity == Some(c.peer) && c.role == run.role
  }

  predicate SameTable(m: Machine, r: Machine) {
    r.deadlines == m.deadlines && r.nextDeadline == m.nextDeadline
  }

  /**
   * What a step may leave: a run that goes on in a valid engine, a candidate of the run it was given, or
   * an error with the deadlines as they were. No step unwraps a missing option.
   */
  predicate StepKeeps(m: Machine, run: Run, f: Frame, s: Stepped) {
    OnlyTimers(m, s.machine)
    && match s.result
       case Ok(None) => Running(s.machine, s.run) && |s.machine.out| <= |m.out| + 4
       case Ok(Some(c)) => CandidateFits(run, c) && SameTable(m, s.machine) && |s.machine.out| <= |m.out| + 1
       case Err(error) =>
         SameTable(m, s.machine) && |s.machine.out| <= |m.out| + 1
         && (error == InvalidStateTransition ==> run.step.Sas? || f.body == Unreadable(InvalidStateTransition))
  }

  /** No decoder reports a missing option of its own. */
  lemma DecodersNeverMissOptions(f: Frame)
    ensures DecodeAuth(f) == Err(InvalidStateTransition) ==> f.body == Unreadable(InvalidStateTransition)
    ensures DecodeHello(f) == Err(InvalidStateTransition) ==> f.body == Unreadable(InvalidStateTransition)
    ensures DecodeConfirm(f) == Err(InvalidStateTransition) ==> f.body == Unreadable(InvalidStateTransition)
  {
  }

  /** Verified keys are those of the run's own secret and transcript hash. */
  lemma VerifiedKeys(run: Run, auth: AuthPayload)
    requires TranscriptFits(run) && !run.step.Hello? && !run.step.Reveal?
    ensures match VerifyAuth(run, auth)
            case Ok(keys) => keys == SessionKeys(run.shared.value, run.hash.value)
            case Err(error) => error != InvalidStateTransition
  {
  }

  /** The run once the keys are derived and the confirmation is awaited. */
  function Confirming(run: Run): Run
    requires run.shared.Some? && run.hash.Some?
  {
    run.(keys := Some(SessionKeys(run.shared.value, run.hash.value)),
         step := if run.role.Initiator? then ConfirmResp else ConfirmInit)
  }

  lemma ConfirmingValid(identity: Identity, active: Option<Session>, run: Run)
    requires RunValid(identity, active, run) && (run.step.AuthResp? || run.step.AuthInit?)
    ensures RunValid(identity, active, Confirming(run))
  {
  }

  lemma ConfirmingKeeps(m: Machine, run: Run, f: Frame)
    requires Running(m, run) && (run.step.AuthResp? || run.step.AuthInit?) && run.shared.Some? && run.hash.Some?
    ensures var r := RearmFrameDeadline(Push(m, Send(f)), run.purpose, Confirming(run).step);
            OnlyTimers(m, r) && Running(r, Confirming(run)) && |r.out| <= |m.out| + 3
  {
    hide RearmFrameDeadline, Tidy, TableOf, RunValid, SameTalk;
    ConfirmingValid(m.identity, m.active, run);
  }

  lemma AuthOptions(m: Machine, run: Run)
    requires Running(m, run) && (run.step.AuthResp? || run.step.AuthInit?)
    ensures run.transcript.Some? && run.shared.Some? && run.hash.Some? && TranscriptFits(run)
    ensures run.role.Initiator? <==> run.step.AuthResp?
    ensures PurposeMatchesPrevious(run.purpose, run.previous.Some?)
  {
    hide Tidy, TableOf;
  }

  lemma StepAuthRespKeeps(m: Machine, run: Run, f: Frame)
    requires Running(m, run) && run.step.AuthResp?
    ensures StepKeeps(m, run, f, StepAuthResp(m, run, f))
  {
    hide RearmFrameDeadline, DecodeAuth, VerifyAuth, Running, SameTalk;
    AuthOptions(m, run);
    DecodersNeverMissOptions(f);
    if DecodeAuth(f).Ok? {
      VerifiedKeys(run, DecodeAuth(f).value);
      var keys := SessionKeys(run.shared.value, run.hash.value);
      ConfirmingKeeps(m, run, EncodeConfirm(ConfirmPayload(IdOf(keys), Initiator, MacOf(keys, keys.hash, true))));
    }
  }

  lemma StepAuthInitKeeps(m: Machine, run: Run, f: Frame)
    requires Running(m, run) && run.step.AuthInit?
    ensures StepKeeps(m, run, f, StepAuthInit(m, run, f))
    ensures StepAuthInit(m, run, f).result.Ok? ==> StepAuthInit(m, run, f).result.value.None?
  {
    hide RearmFrameDeadline, DecodeAuth, VerifyAuth, Running, SameTalk;
    AuthOptions(m, run);
    DecodersNeverMissOptions(f);
    if DecodeAuth(f).Ok? {
      VerifiedKeys(run, DecodeAuth(f).value);
      var keys := SessionKeys(run.shared.value, run.hash.value);
      var reply := AuthPayload(run.transcript.value, 1, DecodeAuth(f).value.initiatorSignature,
          Some(SignedBy(m.identity, keys.hash, false)));
      ConfirmingKeeps(m, run, EncodeAuth(reply).value);
    }
  }

  lemma ConfirmOptions(m: Machine, run: Run)
    requires Running(m, run) && (run.step.ConfirmResp? || run.step.ConfirmInit?)
    ensures run.keys.Some? && run.hash.Some? && run.remoteIdentity.Some?
  {
    hide Tidy, TableOf;
  }

  lemma StepConfirmKeeps(m: Machine, run: Run, f: Frame)
    requires Running(m, run) && (run.step.ConfirmResp? || run.step.ConfirmInit?)
    ensures StepKeeps(m, run, f, if run.step.ConfirmResp? then StepConfirmResp(m, run, f)
        else StepConfirmInit(m, run, f))
  {
    hide DecodeConfirm, Running, SameTalk;
    DecodersNeverMissOptions(f);
    ConfirmOptions(m, run);
  }

  /** The run after approval, before anything buffered is looked at. */
  function Approved(run: Run): Run {
    run.(step := if run.role.Initiator? then AuthResp else AuthInit, early := None)
  }

  /** Approving this run leaves a valid engine; with a buffered frame the table already fits. */
  predicate Approvable(m: Machine, run: Run) {
    var next := Approved(run);
    var t := TableOf(m.deadlines);
    m.run.None? && Typestate(m.(run := Some(next))) && Tidy(m.deadlines, m.nextDeadline)
    && TableFits(Set(t, HandshakeFrame, FrameBounded(run.purpose, next.step)), m.phase, Some(next), m.draining.Some?)
    && (run.early.Some? ==> run.role.Responder? && TableFits(t, m.phase, Some(next), m.draining.Some?))
  }

  lemma AfterApprovalKeeps(m: Machine, run: Run)
    requires Approvable(m, run)
    ensures var s := AfterApproval(m, run);
            OnlyTimers(m, s.machine)
            && match s.result
               case Ok(None) => Running(s.machine, s.run)
                   && |s.machine.out| <= |m.out| + if run.early.None? then 3 else 4
               case Ok(Some(_)) => false
               case Err(_) => run.early.Some? && SameTable(m, s.machine) && |s.machine.out| <= |m.out| + 1
  {
    hide RearmFrameDeadline, Tidy, TableOf, StepAuthInit;
    if run.early.Some? {
      assert Running(m, Approved(run));
      StepAuthInitKeeps(m, Approved(run), run.early.value);
    }
  }

  lemma AfterHellosKeeps(m: Machine, run: Run, remote: HelloPayload)
    requires Running(m, run) && (run.step.Hello? || run.step.Reveal?)
    requires CheckRemoteHello(m, run, remote, Opposite(run.role)).Ok?
    ensures var s := AfterHellos(m, run.(localHelloFrame := None), remote);
            OnlyTimers(m, s.machine)
            && match s.result
               case Ok(None) => Running(s.machine, s.run) && |s.machine.out| <= |m.out| + 3
               case Ok(Some(_)) => false
               case Err(error) => SameTable(m, s.machine) && s.machine.out == m.out && error != InvalidStateTransition
  {
    hide AskUser, AfterApproval, Tidy, TableOf, TableFits;
    var hellos := if run.role.Initiator? then (run.localHello, remote) else (remote, run.localHello);
    var transcript := TranscriptFromHellos(hellos.0, hellos.1);
    var shared := DiffieHellman(run.ephemeral, remote.ephemeral);
    if transcript.Ok? && shared.Ok? {
      if run.purpose.Rekey? {
        RekeyApprovable(m, run, remote, transcript.value, shared.value);
        AfterApprovalKeeps(m, Informed(run.(localHelloFrame := None), remote.identity, transcript.value, shared.value));
      } else {
        AskUserKeeps(m, run, remote, transcript.value, shared.value);
      }
    }
  }

  /** The transcript of a checked pair of HELLOs. */
  predicate TranscriptOf(run: Run, remote: HelloPayload, transcript: Transcript) {
    Ok(transcript) ==
      if run.role.Initiator? then TranscriptFromHellos(run.localHello, remote)
          else TranscriptFromHellos(remote, run.localHello)
  }

  lemma RekeyApprovable(m: Machine, run: Run, remote: HelloPayload, transcript: Transcript, shared: SharedSecret)
    requires Running(m, run) && (run.step.Hello? || run.step.Reveal?) && run.purpose.Rekey?
    requires CheckRemoteHello(m, run, remote, Opposite(run.role)).Ok? && TranscriptOf(run, remote, transcript)
    requires DiffieHellman(run.ephemeral, remote.ephemeral) == Ok(shared)
    ensures Approvable(m, Informed(run.(localHelloFrame := None), remote.identity, transcript, shared))
  {
    hide Tidy, TableOf;
  }

  lemma AskUserKeeps(m: Machine, run: Run, remote: HelloPayload, transcript: Transcript, shared: SharedSecret)
    requires Running(m, run) && (run.step.Hello? || run.step.Reveal?) && run.purpose.Initial?
    requires CheckRemoteHello(m, run, remote, Opposite(run.role)).Ok? && TranscriptOf(run, remote, transcript)
    requires DiffieHellman(run.ephemeral, remote.ephemeral) == Ok(shared)
    ensures var s := AskUser(m, Informed(run.(localHelloFrame := None), remote.identity, transcript, shared),
        transcript, remote.identity);
            OnlyTimers(m, s.machine) && s.result == Ok(None) && Running(s.machine, s.run)
                && |s.machine.out| <= |m.out| + 3
  {
    hide Cancel, Arm, Tidy, TableOf, SameTalk;
  }

  lemma StepHelloKeeps(m: Machine, run: Run, f: Frame)
    requires Running(m, run) && run.step.Hello?
    ensures StepKeeps(m, run, f, StepHello(m, run, f))
  {
    hide AfterHellos, Tidy, TableOf, TableFits, SameTalk, Sends, Delivers, Events, Talk, Questions, Replay, Timely;
    if DecodeHello(f).Ok? && CheckRemoteHello(m, run, DecodeHello(f).value, Responder).Ok? {
      AfterHellosKeeps(Push(m, Send(run.localHelloFrame.value)), run, DecodeHello(f).value);
    }
  }

  lemma StepRevealKeeps(m: Machine, run: Run, f: Frame)
    requires Running(m, run) && run.step.Reveal?
    ensures StepKeeps(m, run, f, StepReveal(m, run, f))
  {
    hide AfterHellos, Tidy, TableOf;
    if DecodeHello(f).Ok? && CheckRemoteHello(m, run, DecodeHello(f).value, Initiator).Ok? {
      assert run.(localHelloFrame := None) == run;
      AfterHellosKeeps(m, run, DecodeHello(f).value);
    }
  }

  /** A reveal is accepted if it fits the run and opens the commitment. */
  predicate RevealAccepted(m: Machine, run: Run, f: Frame) {
    DecodeHello(f).Ok? && CheckRemoteHello(m, run, DecodeHello(f).value, Initiator).Ok? && run.commit.Some?
    && run.commit.value.commitment == CommitmentTo(DecodeHello(f).value)
  }

  /** The handshake goes on with an accepted HELLO only; a refused one leaves no trace. */
  lemma OnlyCommittedGoesOn(m: Machine, run: Run, f: Frame)
    ensures RevealAccepted(m, run, f) ==> StepReveal(m, run, f) == AfterHellos(m, run, DecodeHello(f).value)
    ensures !RevealAccepted(m, run, f) ==>
              StepReveal(m, run, f).result.Err? && StepReveal(m, run, f).machine == m
              && StepReveal(m, run, f).run == run
  {
    hide AfterHellos;
  }

  /** Under one COMMIT two accepted reveals carry the same HELLO, and the engine does the same on both. */
  lemma OneRevealPerCommit(m: Machine, run: Run, f: Frame, g: Frame)
    requires RevealAccepted(m, run, f) && RevealAccepted(m, run, g)
    ensures DecodeHello(f) == DecodeHello(g) && StepReveal(m, run, f) == StepReveal(m, run, g)
  {
    hide AfterHellos, CheckRemoteHello;
    OnlyCommittedGoesOn(m, run, f);
    OnlyCommittedGoesOn(m, run, g);
  }

  lemma StepRunKeeps(m: Machine, run: Run, f: Frame)
    requires Running(m, run)
    ensures StepKeeps(m, run, f, StepRun(m, run, f))
  {
    hide StepHello, StepReveal, StepAuthResp, StepAuthInit, StepConfirmResp, StepConfirmInit;
    match run.step {
      case Hello => StepHelloKeeps(m, run, f);
      case Reveal => StepRevealKeeps(m, run, f);
      case Sas =>
      case AuthResp => StepAuthRespKeeps(m, run, f);
      case AuthInit => StepAuthInitKeeps(m, run, f);
      case _ => StepConfirmKeeps(m, run, f);
    }
  }

  lemma DriveRunKeeps(m: Machine, f: Frame)
    requires Valid(m) && m.run.Some?
    ensures var (r, result) := DriveRun(m, f);
            match result
            case Ok(None) => Valid(r) && OnlyTimers(m, r.(run := m.run)) && |r.out| <= |m.out| + 4
            case Ok(Some(c)) =>
              CandidateFits(m.run.value, c) && r == m.(run := None, out := r.out) && |r.out| <= |m.out| + 1
            case Err(_) => r == m.(run := None, out := r.out) && |r.out| <= |m.out| + 1
  {
    hide StepRun, Tidy, TableOf, TableFits, Typestate;
    var taken := m.(run := None);
    assert taken.(run := Some(m.run.value)) == m;
    StepRunKeeps(taken, m.run.value, f);
  }

  // ------------------------------------------------------------------ beginnings and ends of runs

  /** No handshake is under way and none of its deadlines is armed. */
  predicate Still(m: Machine) {
    Settling(m) && m.run.None? && !TableOf(m.deadlines).frame && !TableOf(m.deadlines).total
  }

  /** The run an engine starts from its next two draws. */
  function InitiatorRun(m: Machine, purpose: Purpose, previous: Option<SessionId>): Run {
    var hello := LocalHello(m, 1, purpose, Initiator, previous);
    Run(purpose, Initiator, previous, FreshSecret(m), hello,
        Some(Frame(MessageTypeForPurpose(purpose), HelloBody(hello))), None,
        Hello, None, None, None, None, None, None)
  }

  function CommitFrame(hello: HelloPayload): Frame {
    Frame(MessageTypeForPurpose(hello.purpose), CommitBody(CommitPayload(1, hello.purpose, CommitmentTo(hello),
        hello.previous)))
  }

  /** Starting as initiator cannot fail: it sends the commitment to the hello that is revealed later. */
  lemma InitiatorStarts(m: Machine, purpose: Purpose, previous: Option<SessionId>)
    requires PurposeMatchesPrevious(purpose, previous.Some?)
    ensures var run := InitiatorRun(m, purpose, previous);
            StartInitiatorRun(m, purpose, previous)
              == (Push(Drawn(m), Send(CommitFrame(run.localHello))).(run := Some(run)), Ok(()))
  {
  }

  lemma InitiatorRunValid(m: Machine, active: Option<Session>, purpose: Purpose, previous: Option<SessionId>)
    requires PurposeMatchesPrevious(purpose, previous.Some?)
    requires purpose.Rekey? ==> active.Some? && previous == Some(active.value.id)
    ensures RunValid(m.identity, active, InitiatorRun(m, purpose, previous))
        && InitiatorRun(m, purpose, previous).purpose == purpose
  {
  }

  lemma BeginRekeyKeeps(m: Machine)
    requires Still(m) || Valid(m)
    ensures var r := BeginRekey(m);
            Valid(r) && r.phase == m.phase && r.active == m.active && r.draining == m.draining && |r.out| <= |m.out| + 4
  {
    hide Arm, RearmFrameDeadline, StartInitiatorRun, InitiatorRun, FailRekey, Tidy, TableOf, RunValid, SameTalk, Sends,
      Delivers, Events, Questions, Talk;
    if m.phase.Open? && m.run.None? && m.active.Some? {
      InitiatorStarts(m, Purpose.Rekey, ActiveId(m));
      InitiatorRunValid(m, m.active, Purpose.Rekey, ActiveId(m));
    }
  }

  function ResponderRun(m: Machine, commit: CommitPayload): Run {
    Run(commit.purpose, Responder, commit.previous, FreshSecret(m),
        LocalHello(m, commit.cipherSuite, commit.purpose, Responder, commit.previous), None, Some(commit), Reveal,
        None, None, None, None, None, None)
  }

  function HelloFrame(hello: HelloPayload): Frame {
    Frame(MessageTypeForPurpose(hello.purpose), HelloBody(hello))
  }

  /** The engine once it has sent its hello and taken up the run. */
  function Answering(m: Machine, commit: CommitPayload): Machine {
    var run := ResponderRun(m, commit);
    Push(Drawn(m), Send(HelloFrame(run.localHello))).(run := Some(run))
  }

  /** Answering a well-formed COMMIT cannot fail. */
  lemma ResponderStarts(m: Machine, commit: CommitPayload, announce: bool)
    requires commit.cipherSuite == 1 && PurposeMatchesPrevious(commit.purpose, commit.previous.Some?)
    ensures var sent := Answering(m, commit);
            var (r, result) := StartResponderRun(m, commit, announce);
            result == Ok(())
            && (commit.purpose.Initial? ==> r == RearmFrameDeadline(sent, Initial, Reveal))
            && (commit.purpose.Rekey? ==>
                  var budgeted := Arm(sent, HandshakeTotal, HANDSHAKE_TOTAL_TIMEOUT_SECS);
                  r == RearmFrameDeadline(if announce then Push(budgeted, Notify(RekeyStarted)) else budgeted,
                                          Purpose.Rekey, Reveal))
  {
    hide Arm, RearmFrameDeadline;
  }

  lemma ResponderRunValid(m: Machine, active: Option<Session>, commit: CommitPayload)
    requires commit.cipherSuite == 1 && PurposeMatchesPrevious(commit.purpose, commit.previous.Some?)
    requires commit.purpose.Rekey? ==> active.Some? && commit.previous == Some(active.value.id)
    ensures var run := ResponderRun(m, commit);
            RunValid(m.identity, active, run) && run.purpose == commit.purpose && run.role.Responder?
                && run.step.Reveal?
  {
  }

  lemma AcceptCommitKeeps(m: Machine, f: Frame)
    requires Valid(m) && m.phase.Handshaking? && m.run.None?
    ensures var (r, result) := AcceptFirstCommit(m, f);
            |r.deadlines| <= 2
            && (result.Ok? ==> Valid(r) && |r.out| <= |m.out| + 3)
            && (result.Err? ==> r.out == m.out)
  {
    hide RearmFrameDeadline, StartResponderRun, ResponderRun, DecodeCommit, Tidy, TableOf, RunValid;
    TidySize(m.deadlines, m.nextDeadline);
    var (r, result) := AcceptFirstCommit(m, f);
    if DecodeCommit(f).Ok? {
      var commit := DecodeCommit(f).value;
      if commit.cipherSuite == 1 && commit.purpose.Initial? && commit.previous.None? {
        ResponderStarts(m, commit, true);
        ResponderRunValid(m, None, commit);
        TidySize(r.deadlines, r.nextDeadline);
      }
    }
  }

  lemma IncomingCommitKeeps(m: Machine, commit: CommitPayload, announce: bool)
    requires Still(m) && NamesActive(m, commit)
    ensures var r := OnIncomingCommit(m, commit, announce);
            Valid(r) && r.phase.Open? && r.active == m.active && r.draining == m.draining
            && |r.out| <= |m.out| + 3 + One(announce)
  {
    hide Arm, RearmFrameDeadline, StartResponderRun, ResponderRun, FailRekey, Tidy, TableOf, RunValid;
    ResponderStarts(m.(rejections := 0), commit, announce);
    ResponderRunValid(m.(rejections := 0), m.active, commit);
  }

  lemma CompleteInitialKeeps(m: Machine, c: Candidate)
    requires m.phase.Handshaking? && m.run.None? && m.active.None? && m.draining.None?
    requires Tidy(m.deadlines, m.nextDeadline) && TableOf(m.deadlines) == Table(true, false, true, false, false)
    ensures var r := CompleteInitial(m, c);
            Valid(r) && r.phase.Open? && |r.out| <= |m.out| + 4
  {
    hide Cancel, Arm, Tidy, TableOf;
  }

  lemma CompleteRekeyKeeps(m: Machine, c: Candidate)
    requires Settling(m) && m.run.None?
    ensures var r := CompleteRekey(m, c);
            Valid(r) && r.phase.Open? && |r.out| <= |m.out| + 7
            && ((r.active == m.active && r.draining == m.draining)
                || (m.active.value.peer == c.peer && r.draining == m.active
                    && r.active == Some(NewSession(c.keys, c.role, c.peer))))
  {
    hide Cancel, Arm, Tidy, TableOf, FailRekey;
    if m.active.value.peer != c.peer || m.active.value.id == IdOf(c.keys) {
      FailRekeyKeeps(m, IdentityMismatch);
    }
  }

  // ------------------------------------------------------------------ the table after a timeout

  lemma {:induction false} WithoutAbsent(ds: seq<Deadline>, kind: DeadlineKind)
    requires !Has(TableOf(ds), kind)
    ensures Without(ds, kind) == ds
  {
    hide Set, Has;
    if ds != [] {
      TailHas(TableOf(ds[1..]), ds[0].kind, kind);
      WithoutAbsent(ds[1..], kind);
    }
  }

  /** Taking out an id takes out its kind. */
  lemma {:induction false} RemovedIsWithout(ds: seq<Deadline>, id: nat, bound: nat)
    requires Tidy(ds, bound) && KindOf(ds, id).Some?
    ensures Removed(ds, id) == Without(ds, KindOf(ds, id).value) && |Removed(ds, id)| == |ds| - 1
  {
    hide Set, Has;
    if ds[0].id == id {
      WithoutAbsent(ds[1..], ds[0].kind);
    } else {
      RemovedIsWithout(ds[1..], id, bound);
      KindIsArmed(ds[1..], id);
    }
  }

  lemma {:induction false} KindIsArmed(ds: seq<Deadline>, id: nat)
    requires KindOf(ds, id).Some?
    ensures Has(TableOf(ds), KindOf(ds, id).value)
  {
    hide Set, Has;
    SetHas(TableOf(ds[1..]), KindOf(ds, id).value, ds[0].kind);
    if ds[0].id != id {
      KindIsArmed(ds[1..], id);
    }
  }

  lemma RemovedKeeps(m: Machine, id: nat)
    requires Tidy(m.deadlines, m.nextDeadline) && KindOf(m.deadlines, id).Some?
    ensures var kind := KindOf(m.deadlines, id).value;
            Tidy(Removed(m.deadlines, id), m.nextDeadline) && |Removed(m.deadlines, id)| == |m.deadlines| - 1
            && TableOf(Removed(m.deadlines, id)) == Set(TableOf(m.deadlines), kind, false)
                && Has(TableOf(m.deadlines), kind)
  {
    var kind := KindOf(m.deadlines, id).value;
    RemovedIsWithout(m.deadlines, id, m.nextDeadline);
    WithoutTidy(m.deadlines, kind, m.nextDeadline);
    WithoutTable(m.deadlines, kind);
    KindIsArmed(m.deadlines, id);
  }

  // ------------------------------------------------------------------ one input

  lemma ArmedBound(m: Machine)
    requires Valid(m)
    ensures |m.deadlines| <= 4 && (m.phase.Handshaking? ==> |m.deadlines| <= 2)
  {
    hide Tidy, TableOf, Typestate;
    TidySize(m.deadlines, m.nextDeadline);
  }

  lemma TimeoutKeeps(m: Machine, id: nat)
    requires Valid(m)
    ensures var r := OnTimeout(m, id);
            Valid(r) && |r.out| <= |m.out| + 7
  {
    hide Terminate, FailRekey, BeginRekey, Tidy, TableOf, Removed, KindOf, RunValid;
    if KindOf(m.deadlines, id).Some? {
      RemovedKeeps(m, id);
      ArmedBound(m);
      var kind := KindOf(m.deadlines, id).value;
      var rest := m.(deadlines := Removed(m.deadlines, id));
      TerminateKeeps(rest, Expired, Some(ResourceLimit));
      TerminateKeeps(rest, Expired, Some(AuthenticationFailure));
      if kind.RekeyDue? {
        BeginRekeyKeeps(rest.(blocked := false, late := 0));
      } else if (kind.HandshakeFrame? || kind.HandshakeTotal?) && m.phase.Open? {
        FailRekeyKeeps(rest, TransportTimeout);
      }
    }
  }

  /** A run that waits for its user can go on once the question's deadline is withdrawn. */
  lemma SasApprovable(m: Machine)
    requires Valid(m) && m.phase.Handshaking? && m.run.Some? && m.run.value.step.Sas?
    ensures Approvable(Cancel(m, SasWait).(run := None), m.run.value)
  {
    hide Cancel, Tidy, TableOf;
  }

  lemma SasKeeps(m: Machine, approved: bool)
    requires Valid(m)
    ensures var r := OnSas(m, approved);
            Valid(r) && |r.out| <= |m.out| + 7
  {
    hide Cancel, Terminate, FailInitial, CompleteInitial, AfterApproval, Tidy, TableOf;
    if m.phase.Handshaking? && m.run.Some? && m.run.value.step.Sas? {
      ArmedBound(m);
      var rest := Cancel(m, SasWait);
      TidySize(rest.deadlines, rest.nextDeadline);
      TerminateKeeps(rest, SasDeclined, Some(AuthenticationFailure));
      if approved {
        var taken := rest.(run := None);
        SasApprovable(m);
        AfterApprovalKeeps(taken, m.run.value);
        var s := AfterApproval(taken, m.run.value);
        if s.result.Err? {
          FailInitialKeeps(s.machine, s.result.error);
        }
      }
    }
  }

  lemma HandshakingFrameKeeps(m: Machine, f: Frame)
    requires Valid(m) && m.phase.Handshaking? && !f.messageType.Close?
    ensures var r := OnFrameHandshaking(m, f);
            Valid(r) && |r.out| <= |m.out| + 6
  {
    hide FailInitial, CompleteInitial, AcceptFirstCommit, DriveRun, Tidy, TableOf;
    ArmedBound(m);
    if m.run.None? {
      var (r, accepted) := AcceptFirstCommit(m, f);
      AcceptCommitKeeps(m, f);
      if accepted.Err? {
        FailInitialKeeps(r, accepted.error);
      }
    } else {
      var (r, result) := DriveRun(m, f);
      DriveRunKeeps(m, f);
      if result.Err? {
        FailInitialKeeps(r, result.error);
      } else if result.value.Some? {
        CompleteInitialKeeps(r, result.value.value);
      }
    }
  }

  lemma RekeyFrameKeeps(m: Machine, f: Frame)
    requires Valid(m) && m.phase.Open?
    ensures var r := OnRekeyFrame(m, f);
            Valid(r) && |r.out| <= |m.out| + 8 && (f.messageType.Rekey? ==> r.phase.Open?)
  {
    hide FailRekey, CompleteRekey, DriveRun, ResolveGlare, OnRekeyFrameIdle, Tidy, TableOf;
    if m.run.None? {
      RekeyFrameIdleKeeps(m, f);
    } else {
      if DecodeCommit(f).Ok? {
        ResolveGlareKeeps(m, DecodeCommit(f).value);
      }
      var (r, result) := DriveRun(m, f);
      DriveRunKeeps(m, f);
      if result.Err? {
        FailRekeyKeeps(r, result.error);
      } else if result.value.Some? {
        CompleteRekeyKeeps(r, result.value.value);
      }
    }
  }

  lemma RekeyFrameIdleKeeps(m: Machine, f: Frame)
    requires Valid(m) && m.phase.Open? && m.run.None?
    ensures var r := OnRekeyFrameIdle(m, f);
            Valid(r) && |r.out| <= |m.out| + 7 && (f.messageType.Rekey? ==> r.phase.Open?)
            && (r.phase.Open? ==> r.active == m.active && r.draining == m.draining)
            && (r.phase.Open? || r.phase.Ended?)
  {
    hide Terminate, OnIncomingCommit, NoteRekeyRejection, Tidy, TableOf;
    ArmedBound(m);
    TerminateKeeps(m, ProtocolViolation, Some(ProtocolError));
    NoteKeeps(m);
    if DecodeCommit(f).Ok? && NamesActive(m, DecodeCommit(f).value) {
      IncomingCommitKeeps(m.(late := 0), DecodeCommit(f).value, true);
    }
  }

  lemma ResolveGlareKeeps(m: Machine, commit: CommitPayload)
    requires Valid(m) && m.phase.Open? && m.run.Some?
    requires commit.cipherSuite == 1 && PurposeMatchesPrevious(commit.purpose, commit.previous.Some?)
    ensures var r := ResolveGlare(m, commit);
            Valid(r) && r.phase.Open? && r.active == m.active && r.draining == m.draining && |r.out| <= |m.out| + 5
  {
    hide Cancel, OnIncomingCommit, NoteRekeyRejection, Tidy, TableOf;
    NoteKeeps(m);
    if commit.previous == m.run.value.previous {
      IncomingCommitKeeps(Cancel(Cancel(m.(run := None), HandshakeFrame), HandshakeTotal), commit, false);
    }
  }

  /** Only the receivers and senders of the sessions moved on. */
  lemma SameSession(m: Machine, r: Machine)
    requires Valid(m) && m.phase.Open? && r == m.(active := r.active) && r.active.Some?
    requires r.active.value.id == m.active.value.id && r.active.value.peer == m.active.value.peer
    ensures Valid(r) && (m.run.Some? ==> RunValid(m.identity, r.active, m.run.value))
  {
    hide Tidy, TableOf;
  }

  lemma CarriedKeeps(m: Machine, e: Effect)
    requires Valid(m) && m.phase.Open?
    ensures Valid(Carried(m, e)) && |Carried(m, e).out| <= |m.out| + 5
  {
    hide BeginRekey, Tidy, TableOf, RunValid, Sends, Delivers, Events, Talk, Questions;
    BeginRekeyKeeps(Push(m.(messages := m.messages + 1), e));
  }

  lemma UndecryptedKeeps(m: Machine, f: Frame, error: Error)
    requires Valid(m) && m.phase.Open?
    ensures Valid(OnUndecrypted(m, f, error)) && |OnUndecrypted(m, f, error).out| <= |m.out| + 7
  {
    hide Decrypt, Terminate, Tidy, TableOf, RunValid, Sends, Delivers, Events, Talk, Questions;
    ArmedBound(m);
    TerminateKeeps(DecryptDraining(m, f).0, ProtocolViolation, Some(ProtocolError));
  }

  lemma DataKeeps(m: Machine, f: Frame)
    requires Valid(m) && m.phase.Open?
    ensures var r := OnData(m, f);
            Valid(r) && |r.out| <= |m.out| + 7
  {
    hide Carried, OnUndecrypted, Decrypt, Tidy, TableOf, RunValid;
    var (receiver, result) := Decrypt(m.active.value.receiver, f);
    var next := m.(active := Some(m.active.value.(receiver := receiver)));
    SameSession(m, next);
    if result.Ok? {
      CarriedKeeps(next, Deliver(result.value));
    } else {
      UndecryptedKeeps(next, f, result.error);
    }
  }

  lemma SendKeeps(m: Machine, content: seq<byte>)
    requires Valid(m)
    ensures var r := OnSend(m, content);
            Valid(r) && |r.out| <= |m.out| + 7
  {
    hide Carried, Terminate, SealedFrame, Tidy, TableOf, RunValid, Sends, Delivers, Events, Talk, Questions;
    ArmedBound(m);
    TerminateKeeps(m, ProtocolViolation, Some(ProtocolError));
    if |content| <= MAX_CONTENT && m.phase.Open? {
      var sender := m.active.value.sender;
      var next := m.(active := Some(m.active.value.(sender := AfterEncrypt(sender))));
      SameSession(m, next);
      CarriedKeeps(next, Send(SealedFrame(sender, content)));
    }
  }

  lemma CloseFrameKeeps(m: Machine, f: Frame)
    requires Valid(m) && (m.phase.Handshaking? || m.phase.Open?)
    ensures var r := OnCloseFrame(m, f);
            Valid(r) && |r.out| <= |m.out| + 7
  {
    hide Cancel, Terminate, Tidy, TableOf, RunValid;
    ArmedBound(m);
    TerminateKeeps(m, ProtocolViolation, Some(ProtocolError));
    if DecodeClose(f).Ok? {
      TerminateKeeps(m, PeerUnauthenticated(DecodeClose(f).value.reason), None);
    }
  }

  lemma FrameKeeps(m: Machine, f: Frame)
    requires Valid(m) && !m.phase.Ended?
    ensures Valid(OnFrame(m, f)) && |OnFrame(m, f).out| <= |m.out| + 8
  {
    hide Valid, Terminate, OnData, OnCloseFrame, OnRekeyFrame;
    assert m.phase.Idle? ==> m.deadlines == [] by {
      if m.phase.Idle? {
        IdleUnarmed(m);
      }
    }
    TerminateKeeps(m, ProtocolViolation, Some(ProtocolError));
    ArmedBound(m);
    if m.phase.Handshaking? {
      if f.messageType.Close? {
        CloseFrameKeeps(m, f);
      } else {
        HandshakingFrameKeeps(m, f);
      }
    } else if m.phase.Open? {
      match f.messageType {
        case Data => DataKeeps(m, f);
        case Close => CloseFrameKeeps(m, f);
        case Handshake =>
        case _ => RekeyFrameKeeps(m, f);
      }
    }
  }

  lemma IdleUnarmed(m: Machine)
    requires Valid(m) && (m.phase.Idle? || m.phase.Ended?)
    ensures m.deadlines == []
  {
    TidySize(m.deadlines, m.nextDeadline);
  }

  lemma StartKeeps(m: Machine)
    requires Valid(m)
    ensures Valid(StartMachine(m)) && |StartMachine(m).out| <= |m.out| + 3
  {
    hide Arm, RearmFrameDeadline, Tidy, TableOf, SameTalk, Sends, Delivers, Events, Talk, Questions, Replay, Timely;
  }

  /**
   * One input on any reachable engine keeps the typestate and the deadline table, arms at most 4
   * deadlines and emits at most 8 effects. A closed engine emits none.
   */
  lemma HandleKeeps(m: Machine, input: Input)
    requires Valid(m)
    ensures var r := Handle(m, input);
            Valid(r) && |r.deadlines| <= 4 && |r.out| <= 8
            && (m.phase.Ended? ==> r == m.(out := []))
  {
    hide Terminate, OnFrame, OnSas, OnSend, BeginRekey, OnTimeout, StartMachine, Tidy, TableOf, RunValid;
    var cleared := m.(out := []);
    ArmedBound(m);
    if !m.phase.Ended? {
      match input {
        case Start => StartKeeps(cleared);
        case FrameReceived(f) => FrameKeeps(cleared, f);
        case SasDecision(approved) => SasKeeps(cleared, approved);
        case LocalSend(content) => SendKeeps(cleared, content);
        case LocalClose(reason) => TerminateKeeps(cleared, Local, Some(reason));
        case RequestRekey => BeginRekeyKeeps(cleared);
        case Timeout(id) => TimeoutKeeps(cleared, id);
        case TransportClosed => TerminateKeeps(cleared, TransportLost, None);
        case Malformed(respond) => TerminateKeeps(cleared, ProtocolViolation, if respond then Some(ProtocolError)
            else None);
      }
    }
    ArmedBound(Handle(m, input));
  }

  function HandleAll(m: Machine, inputs: seq<Input>): Machine
    decreases |inputs|
  {
    if inputs == [] then m else HandleAll(Handle(m, inputs[0]), inputs[1..])
  }

  // ------------------------------------------------------------------ whole runs

  ghost predicate Steps(m: Machine, input: Input, r: Machine) {
    r == Handle(m, input)
  }

  /** The states of an engine under any inputs, from its creation. */
  ghost predicate EngineRun(states: seq<Machine>, inputs: seq<Input>) {
    |states| == |inputs| + 1
    && states[0] == NewMachine(states[0].role, states[0].identity, states[0].source, states[0].limit)
    && forall i, j {:trigger Steps(states[i], inputs[i], states[j])} ::
         0 <= i && j == i + 1 <= |inputs| ==> Steps(states[i], inputs[i], states[j])
  }

  /** In every reachable engine the typestate and the deadline table hold, with at most 4 deadlines and 8 effects. */
  lemma {:induction false} ReachableValid(states: seq<Machine>, inputs: seq<Input>, i: nat)
    requires EngineRun(states, inputs) && i <= |inputs|
    ensures Valid(states[i]) && |states[i].deadlines| <= 4 && |states[i].out| <= 8
    ensures i < |inputs| ==> Steps(states[i], inputs[i], states[i + 1])
  {
    hide Handle, Valid;
    if i == 0 {
      FreshValid(states[0].role, states[0].identity, states[0].source, states[0].limit);
    } else {
      ReachableValid(states, inputs, i - 1);
      HandleKeeps(states[i - 1], inputs[i - 1]);
    }
  }
}
