/** The engine as an object whose methods update its fields, each proved to do what Machine says. */
module Engine {
  import opened Protocol
  import opened Symbolic
  import opened Data
  import opened Machine
  import M = Machine
  import CanonicalMap
  import EngineInvariants

  /** One session with its own sender and receiver objects. */
  class LiveSession {
    const id: SessionId
    const peer: Identity
    const sender: DataSender
    const receiver: DataReceiver

    function Repr(): set<object> {
      {sender, receiver.chain, receiver.replay}
    }

    function State(): Session
      reads Repr()
    {
      Session(id, peer, sender.State(), receiver.State())
    }

    constructor (keys: SessionKeys, role: Role, peer: Identity)
      ensures fresh(Repr())
      ensures State() == NewSession(keys, role, peer)
    {
      var sending := SendDirection(role);
      var receiving := SendDirection(Opposite(role));
      var s := new DataSender(IdOf(keys), sending, Seed(keys, sending));
      var r := new DataReceiver(IdOf(keys), receiving, Seed(keys, receiving));
      this.id, this.peer, this.sender, this.receiver := IdOf(keys), peer, s, r;
    }
  }

  function ReprOf(s: LiveSession?): set<object> {
    if s == null then {} else s.Repr()
  }

  function StateOf(s: LiveSession?): Option<Session>
    reads ReprOf(s)
  {
    if s == null then None else Some(s.State())
  }

  /** Keeps what is of another kind and reports the rest as cancelled, in order. */
  method Retain(ds: seq<Deadline>, kind: DeadlineKind) returns (kept: seq<Deadline>, said: seq<Effect>)
    ensures kept == Without(ds, kind) && said == Cancellations(ds, kind)
  {
    kept, said := [], [];
    for i := 0 to |ds|
      invariant Without(ds, kind) == kept + Without(ds[i..], kind)
      invariant Cancellations(ds, kind) == said + Cancellations(ds[i..], kind)
    {
      RetainStep(ds, i, kind, kept, said);
      if ds[i].kind == kind {
        said := said + [CancelDeadline(ds[i].id)];
      } else {
        kept := kept + [ds[i]];
      }
    }
  }

  lemma RetainStep(ds: seq<Deadline>, i: nat, kind: DeadlineKind, kept: seq<Deadline>, said: seq<Effect>)
    requires i < |ds|
    ensures kept + Without(ds[i..], kind)
         == if ds[i].kind == kind then kept + Without(ds[i + 1..], kind)
             else (kept + [ds[i]]) + Without(ds[i + 1..], kind)
    ensures said + Cancellations(ds[i..], kind)
         == if ds[i].kind == kind then (said + [CancelDeadline(ds[i].id)]) + Cancellations(ds[i + 1..], kind)
            else said + Cancellations(ds[i + 1..], kind)
  {
    assert ds[i..][0] == ds[i] && ds[i..][1..] == ds[i + 1..];
    Rejoin(kept, ds[i], Without(ds[i + 1..], kind));
    Rejoin(said, CancelDeadline(ds[i].id), Cancellations(ds[i + 1..], kind));
    assert [] + Without(ds[i + 1..], kind) == Without(ds[i + 1..], kind);
    assert [] + Cancellations(ds[i + 1..], kind) == Cancellations(ds[i + 1..], kind);
  }

  lemma Rejoin<T>(a: seq<T>, x: T, b: seq<T>)
    ensures a + ([x] + b) == (a + [x]) + b
  {
  }

  /** Reports every deadline as cancelled, in order. */
  method CancelEach(ds: seq<Deadline>) returns (said: seq<Effect>)
    ensures said == AllCancellations(ds)
  {
    said := [];
    for i := 0 to |ds|
      invariant AllCancellations(ds) == said + AllCancellations(ds[i..])
    {
      assert ds[i..][0] == ds[i] && ds[i..][1..] == ds[i + 1..];
      Rejoin(said, CancelDeadline(ds[i].id), AllCancellations(ds[i + 1..]));
      said := said + [CancelDeadline(ds[i].id)];
    }
  }

  /** The position of a deadline. */
  method Find(ds: seq<Deadline>, id: nat) returns (at: Option<nat>)
    ensures at.None? <==> KindOf(ds, id).None?
    ensures at.Some? ==>
              at.value < |ds| && KindOf(ds, id) == Some(ds[at.value].kind)
              && Removed(ds, id) == ds[..at.value] + ds[at.value + 1..]
  {
    for i := 0 to |ds|
      invariant KindOf(ds, id) == KindOf(ds[i..], id)
      invariant Removed(ds, id) == ds[..i] + Removed(ds[i..], id)
    {
      FindStep(ds, i, id);
      if ds[i].id == id {
        return Some(i);
      }
    }
    at := None;
  }

  lemma FindStep(ds: seq<Deadline>, i: nat, id: nat)
    requires i < |ds|
    ensures KindOf(ds[i..], id) == if ds[i].id == id then Some(ds[i].kind) else KindOf(ds[i + 1..], id)
    ensures ds[..i] + Removed(ds[i..], id) == if ds[i].id == id then ds[..i] + ds[i + 1..]
        else ds[..i + 1] + Removed(ds[i + 1..], id)
  {
    assert ds[i..][0] == ds[i] && ds[i..][1..] == ds[i + 1..];
    assert ds[..i + 1] == ds[..i] + [ds[i]];
    Rejoin(ds[..i], ds[i], Removed(ds[i + 1..], id));
  }

  class Engine {
    const role: Role
    const identity: Identity
    const source: nat
    var draws: nat
    var phase: Phase
    var run: Option<Run>
    var active: LiveSession?
    var draining: LiveSession?
    var deadlines: seq<Deadline>
    var nextDeadline: nat
    var messages: nat
    var limit: nat
    var blocked: bool
    var late: nat
    var rejections: nat
    var out: seq<Effect>

    function Sessions(): set<object>
      reads this
    {
      ReprOf(active) + ReprOf(draining)
    }

    function State(): Machine
      reads this, Sessions()
    {
      M.Machine.Machine(role, identity, source, draws, phase, run, StateOf(active), StateOf(draining), deadlines,
          nextDeadline, messages, limit, blocked, late, rejections, out)
    }

    /** The two sessions share no object. */
    predicate Apart()
      reads this
    {
      ReprOf(active) !! ReprOf(draining)
    }

    constructor (role: Role, identity: Identity, source: nat)
      ensures Apart() && Sessions() == {} && State() == NewMachine(role, identity, source, REKEY_MESSAGE_LIMIT)
    {
      this.role, this.identity, this.source, draws := role, identity, source, 0;
      phase, run, active, draining := Idle, None, null, null;
      deadlines, nextDeadline, messages, limit := [], 0, 0, REKEY_MESSAGE_LIMIT;
      blocked, late, rejections, out := false, 0, 0, [];
    }

    // ---------------------------------------------------------------- effects and deadlines

    method Emit(e: Effect)
      modifies this`out
      ensures State() == Push(old(State()), e)
    {
      hide Sends, Delivers, Events, Talk, Questions, Replay, Timely;
      out := out + [e];
    }

    method Cancel(kind: DeadlineKind)
      modifies this`deadlines, this`out
      ensures State() == M.Cancel(old(State()), kind)
    {
      hide Tidy, TableOf, SameTalk, Sends, Delivers, Events, Talk, Questions, Replay, Timely, Set, Has, Without,
        Cancellations;
      var kept, said := Retain(deadlines, kind);
      deadlines := kept;
      out := out + said;
    }

    method CancelAll()
      modifies this`deadlines, this`out
      ensures State() == M.CancelAll(old(State()))
    {
      hide Tidy, TableOf, SameTalk, Sends, Delivers, Events, Talk, Questions, Replay, Timely;
      var said := CancelEach(deadlines);
      out := out + said;
      deadlines := [];
    }

    method Arm(kind: DeadlineKind, after: nat)
      modifies this`deadlines, this`out, this`nextDeadline
      ensures State() == M.Arm(old(State()), kind, after)
    {
      hide M.Cancel, Tidy, TableOf, SameTalk, Sends, Delivers, Events, Talk, Questions, Replay, Timely;
      Cancel(kind);
      var id := nextDeadline;
      nextDeadline := nextDeadline + 1;
      deadlines := deadlines + [Deadline(id, kind)];
      Emit(SetDeadline(id, kind, after));
    }

    method Disarm()
      modifies this`deadlines, this`out
      ensures State() == Disarmed(old(State()))
    {
      hide StateOf, M.Cancel, Tidy, TableOf, SameTalk, Sends, Delivers, Events, Talk, Questions, Replay, Timely;
      Cancel(HandshakeFrame);
      Cancel(HandshakeTotal);
    }

    method RearmFrameDeadline(purpose: Purpose, step: Step)
      modifies this`deadlines, this`out, this`nextDeadline
      ensures State() == M.RearmFrameDeadline(old(State()), purpose, step)
    {
      hide StateOf, M.Cancel, M.Arm, Tidy, TableOf, SameTalk, Sends, Delivers, Events, Talk, Questions, Replay, Timely;
      Cancel(HandshakeFrame);
      var bounded := purpose.Rekey? || step.Hello? || step.Reveal? || step.ConfirmResp? || step.ConfirmInit?;
      if bounded {
        Arm(HandshakeFrame, HANDSHAKE_FRAME_TIMEOUT_SECS);
      }
    }

    // ---------------------------------------------------------------- ends

    method TellPeer(notifyPeer: Option<CloseReason>)
      modifies this`out
      ensures State() == Told(old(State()), notifyPeer)
    {
      hide Tidy, TableOf, SameTalk, Sends, Delivers, Events, Talk, Questions, Replay, Timely;
      if notifyPeer.Some? {
        var id := if active == null then None else Some(active.id);
        out := out + [Send(EncodeClose(ClosePayload(id, notifyPeer.value)))];
      }
    }

    method Terminate(cause: CloseCause, notifyPeer: Option<CloseReason>)
      modifies this
      ensures State() == M.Terminate(old(State()), cause, notifyPeer)
      ensures active == null && draining == null
    {
      hide M.CancelAll, Told, Push, Tidy, TableOf, SameTalk, Sends, Delivers, Events, Talk, Questions, Replay, Timely;
      CancelAll();
      TellPeer(notifyPeer);
      Emit(Notify(Closed(cause)));
      Emit(CloseTransport);
      run, active, draining, phase := None, null, null, Ended;
    }

    method FailInitial(error: Error)
      modifies this
      ensures State() == M.FailInitial(old(State()), error)
      ensures active == null && draining == null
    {
      hide StateOf, M.Terminate;
      match error
      case SasRejected => Terminate(SasDeclined, Some(AuthenticationFailure));
      case SignatureInvalid => Terminate(Unauthentic, Some(AuthenticationFailure));
      case ConfirmationInvalid => Terminate(Unauthentic, Some(AuthenticationFailure));
      case IdentityMismatch => Terminate(Unauthentic, Some(IdentityChanged));
      case _ => Terminate(ProtocolViolation, Some(ProtocolError));
    }

    method Discard()
      modifies this`run, this`late, this`deadlines, this`out
      ensures State() == Discarded(old(State()))
    {
      hide Disarmed;
      run := None;
      late := LATE_REKEY_FRAME_GRACE;
      Disarm();
    }

    /** A failed rekey discards the candidate only. */
    method FailRekey(error: Error)
      modifies this`run, this`late, this`blocked, this`deadlines, this`nextDeadline, this`out
      ensures State() == M.FailRekey(old(State()), error)
    {
      hide Discarded, M.Arm, Push, FailureOf, Tidy, TableOf, SameTalk, Sends, Delivers, Events, Talk, Questions, Replay,
        Timely;
      Discard();
      blocked := true;
      Arm(RekeyDue, REKEY_RETRY_SECS);
      Emit(Notify(RekeyFailed(FailureOf(error))));
    }

    method NoteRekeyRejection()
      modifies this`rejections, this`out
      ensures State() == M.NoteRekeyRejection(old(State()))
    {
      if rejections < REKEY_REJECTION_WARNING_THRESHOLD {
        rejections := rejections + 1;
        if rejections == REKEY_REJECTION_WARNING_THRESHOLD {
          Emit(Notify(RekeyFailed(Repeated)));
        }
      }
    }

    // ---------------------------------------------------------------- starting runs

    method FreshKeys() returns (ephemeral: Secret, nonce: Nonce)
      modifies this`draws
      ensures ephemeral == Secret(source, old(draws)) && nonce == Nonce(source, old(draws) + 1)
      ensures State() == Drawn(old(State()))
    {
      ephemeral := Secret(source, draws);
      nonce := Nonce(source, draws + 1);
      draws := draws + 2;
    }

    method StartInitiatorRun(purpose: Purpose, previous: Option<SessionId>) returns (result: Result<()>)
      modifies this`draws, this`run, this`out
      ensures (State(), result) == M.StartInitiatorRun(old(State()), purpose, previous)
    {
      hide Push, EncodeHello, EncodeCommit, Tidy, TableOf, SameTalk, Sends, Delivers, Events, Talk, Questions, Replay,
        Timely;
      var ephemeral, nonce := FreshKeys();
      var hello := HelloPayload(1, purpose, Initiator, identity, PublicOf(ephemeral), nonce, previous);
      var helloFrame := EncodeHello(hello);
      if helloFrame.Err? {
        return Err(helloFrame.error);
      }
      var commitFrame := EncodeCommit(CommitPayload(1, purpose, CommitmentTo(hello), previous));
      if commitFrame.Err? {
        return Err(commitFrame.error);
      }
      Emit(Send(commitFrame.value));
      run := Some(Run(purpose, Initiator, previous, ephemeral, hello, Some(helloFrame.value), None, Hello,
                      None, None, None, None, None, None));
      result := Ok(());
    }

    method StartResponderRun(commit: CommitPayload, announce: bool) returns (result: Result<()>)
      modifies this`draws, this`run, this`deadlines, this`nextDeadline, this`out
      ensures (State(), result) == M.StartResponderRun(old(State()), commit, announce)
    {
      hide Push, EncodeHello, Budgeted, M.RearmFrameDeadline, Tidy, TableOf, SameTalk, Sends, Delivers, Events, Talk,
        Questions, Replay, Timely;
      var ephemeral, nonce := FreshKeys();
      var hello := HelloPayload(commit.cipherSuite, commit.purpose, Responder, identity, PublicOf(ephemeral), nonce,
          commit.previous);
      var helloFrame := EncodeHello(hello);
      if helloFrame.Err? {
        return Err(helloFrame.error);
      }
      Emit(Send(helloFrame.value));
      run := Some(Run(commit.purpose, Responder, commit.previous, ephemeral, hello, None, Some(commit), Reveal,
                      None, None, None, None, None, None));
      assert State() == Push(Drawn(old(State())), Send(helloFrame.value)).(run := run);
      Budget(commit.purpose, announce);
      RearmFrameDeadline(commit.purpose, Reveal);
      result := Ok(());
    }

    method Budget(purpose: Purpose, announce: bool)
      modifies this`deadlines, this`nextDeadline, this`out
      ensures State() == Budgeted(old(State()), purpose, announce)
    {
      hide StateOf, Push, M.Arm, Tidy, TableOf, SameTalk, Sends, Delivers, Events, Talk, Questions, Replay, Timely;
      if purpose.Rekey? {
        Arm(HandshakeTotal, HANDSHAKE_TOTAL_TIMEOUT_SECS);
        if announce {
          Emit(Notify(RekeyStarted));
        }
      }
    }

    method Start()
      modifies this
      ensures State() == StartMachine(old(State()))
      ensures (active == null || active == old(active)) && (draining == null || draining == old(draining))
    {
      hide M.StartInitiatorRun, M.FailInitial, M.Arm, M.RearmFrameDeadline, Push, Tidy, TableOf, SameTalk, Sends,
        Delivers, Events, Talk, Questions, Replay, Timely;
      if !phase.Idle? {
        return;
      }
      phase := Handshaking;
      assert State() == old(State()).(phase := Handshaking);
      Arm(HandshakeTotal, HANDSHAKE_TOTAL_TIMEOUT_SECS);
      if role.Initiator? {
        var started := StartInitiatorRun(Initial, None);
        if started.Err? {
          FailInitial(started.error);
          return;
        }
        RearmFrameDeadline(Initial, Hello);
      } else {
        Arm(HandshakeFrame, HANDSHAKE_FRAME_TIMEOUT_SECS);
      }
    }

    // ---------------------------------------------------------------- steps of a run

    method CheckRemoteHello(run: Run, remote: HelloPayload, expected: Role) returns (result: Result<()>)
      ensures result == M.CheckRemoteHello(State(), run, remote, expected)
    {
      if remote.role != expected || remote.cipherSuite != run.localHello.cipherSuite || remote.purpose != run.purpose
         || remote.previous != run.previous || remote.identity == run.localHello.identity
         || remote.ephemeral == run.localHello.ephemeral {
        return Err(InvalidHandshake);
      }
      if run.purpose.Rekey? {
        if active == null {
          return Err(InvalidStateTransition);
        }
        if remote.identity != active.peer {
          return Err(IdentityMismatch);
        }
      }
      result := Ok(());
    }

    method StepRun(run: Run, f: Frame) returns (r: Run, result: Result<Option<Candidate>>)
      modifies this`deadlines, this`nextDeadline, this`out
      ensures Stepped(State(), r, result) == M.StepRun(old(State()), run, f)
    {
      hide M.StepHello, M.StepReveal, M.StepAuthResp, M.StepAuthInit, M.StepConfirmResp, M.StepConfirmInit;
      match run.step
      case Hello => r, result := StepHello(run, f);
      case Reveal => r, result := StepReveal(run, f);
      case Sas =>
        if run.role.Responder? && run.early.None? && f.messageType.Handshake? {
          r, result := run.(early := Some(f)), Ok(None);
        } else {
          r, result := run, Err(InvalidStateTransition);
        }
      case AuthResp => r, result := StepAuthResp(run, f);
      case AuthInit => r, result := StepAuthInit(run, f);
      case ConfirmResp => r, result := StepConfirmResp(run, f);
      case ConfirmInit => r, result := StepConfirmInit(run, f);
    }

    method StepHello(run: Run, f: Frame) returns (r: Run, result: Result<Option<Candidate>>)
      modifies this`deadlines, this`nextDeadline, this`out
      ensures Stepped(State(), r, result) == M.StepHello(old(State()), run, f)
    {
      hide DecodeHello, M.CheckRemoteHello, M.AfterHellos, Push, Tidy, TableOf, SameTalk, Sends, Delivers, Events, Talk,
        Questions, Replay, Timely;
      var remote := DecodeHello(f);
      if remote.Err? {
        return run, Err(remote.error);
      }
      var checked := CheckRemoteHello(run, remote.value, Responder);
      if checked.Err? {
        return run, Err(checked.error);
      }
      if run.localHelloFrame.None? {
        return run, Err(InvalidStateTransition);
      }
      Emit(Send(run.localHelloFrame.value));
      r, result := AfterHellos(run.(localHelloFrame := None), remote.value);
    }

    method StepReveal(run: Run, f: Frame) returns (r: Run, result: Result<Option<Candidate>>)
      modifies this`deadlines, this`nextDeadline, this`out
      ensures Stepped(State(), r, result) == M.StepReveal(old(State()), run, f)
    {
      hide DecodeHello, M.CheckRemoteHello, M.AfterHellos, Tidy, TableOf, SameTalk, Sends, Delivers, Events, Talk,
        Questions, Replay, Timely;
      var remote := DecodeHello(f);
      if remote.Err? {
        return run, Err(remote.error);
      }
      var checked := CheckRemoteHello(run, remote.value, Initiator);
      if checked.Err? {
        return run, Err(checked.error);
      }
      if run.commit.None? {
        return run, Err(InvalidStateTransition);
      }
      if CommitmentTo(remote.value) != run.commit.value.commitment {
        return run, Err(InvalidHandshake);
      }
      r, result := AfterHellos(run, remote.value);
    }

    method StepAuthResp(run: Run, f: Frame) returns (r: Run, result: Result<Option<Candidate>>)
      modifies this`deadlines, this`nextDeadline, this`out
      ensures Stepped(State(), r, result) == M.StepAuthResp(old(State()), run, f)
    {
      hide StateOf, DecodeAuth, VerifyAuth, Push, M.RearmFrameDeadline, Tidy, TableOf, SameTalk, Sends, Delivers,
        Events, Talk, Questions, Replay, Timely;
      var auth := DecodeAuth(f);
      if auth.Err? {
        return run, Err(auth.error);
      }
      if auth.value.stage != 1 || auth.value.responderSignature.None? {
        return run, Err(InvalidHandshake);
      }
      var keys := VerifyAuth(run, auth.value);
      if keys.Err? {
        return run, Err(keys.error);
      }
      var confirm := ConfirmPayload(IdOf(keys.value), Initiator, MacOf(keys.value, keys.value.hash, true));
      Emit(Send(EncodeConfirm(confirm)));
      r, result := run.(keys := Some(keys.value), step := ConfirmResp), Ok(None);
      RearmFrameDeadline(r.purpose, r.step);
    }

    method StepAuthInit(run: Run, f: Frame) returns (r: Run, result: Result<Option<Candidate>>)
      modifies this`deadlines, this`nextDeadline, this`out
      ensures Stepped(State(), r, result) == M.StepAuthInit(old(State()), run, f)
    {
      hide StateOf, DecodeAuth, EncodeAuth, VerifyAuth, Push, M.RearmFrameDeadline, Tidy, TableOf, SameTalk, Sends,
        Delivers, Events, Talk, Questions, Replay, Timely;
      var auth := DecodeAuth(f);
      if auth.Err? {
        return run, Err(auth.error);
      }
      if auth.value.stage != 0 || auth.value.responderSignature.Some? {
        return run, Err(InvalidHandshake);
      }
      var keys := VerifyAuth(run, auth.value);
      if keys.Err? {
        return run, Err(keys.error);
      }
      if run.transcript.None? {
        return run, Err(InvalidStateTransition);
      }
      var response := EncodeAuth(AuthPayload(run.transcript.value, 1, auth.value.initiatorSignature,
                                             Some(SignedBy(identity, keys.value.hash, false))));
      if response.Err? {
        return run, Err(response.error);
      }
      Emit(Send(response.value));
      r, result := run.(keys := Some(keys.value), step := ConfirmInit), Ok(None);
      RearmFrameDeadline(r.purpose, r.step);
    }

    method StepConfirmResp(run: Run, f: Frame) returns (r: Run, result: Result<Option<Candidate>>)
      ensures Stepped(State(), r, result) == M.StepConfirmResp(State(), run, f)
    {
      hide StateOf, DecodeConfirm, VerifyConfirm;
      r := run;
      var confirm := DecodeConfirm(f);
      if confirm.Err? {
        return run, Err(confirm.error);
      }
      if run.keys.None? || run.hash.None? {
        return run, Err(InvalidStateTransition);
      }
      var verified := VerifyConfirm(confirm.value, run.keys.value, run.hash.value, Responder);
      if verified.Err? {
        return run, Err(verified.error);
      }
      result := CandidateOf(run, run.keys.value);
    }

    method StepConfirmInit(run: Run, f: Frame) returns (r: Run, result: Result<Option<Candidate>>)
      modifies this`out
      ensures Stepped(State(), r, result) == M.StepConfirmInit(old(State()), run, f)
    {
      hide StateOf, DecodeConfirm, VerifyConfirm, Push, CandidateOf, Tidy, TableOf, SameTalk, Sends, Delivers, Events,
        Talk, Questions, Replay, Timely;
      r := run;
      var confirm := DecodeConfirm(f);
      if confirm.Err? {
        return run, Err(confirm.error);
      }
      if run.keys.None? || run.hash.None? {
        return run, Err(InvalidStateTransition);
      }
      var keys, hash := run.keys.value, run.hash.value;
      var verified := VerifyConfirm(confirm.value, keys, hash, Initiator);
      if verified.Err? {
        return run, Err(verified.error);
      }
      Emit(Send(EncodeConfirm(ConfirmPayload(IdOf(keys), Responder, MacOf(keys, hash, false)))));
      result := CandidateOf(run, keys);
    }

    method AfterHellos(run: Run, remote: HelloPayload) returns (r: Run, result: Result<Option<Candidate>>)
      modifies this`deadlines, this`nextDeadline, this`out
      ensures Stepped(State(), r, result) == M.AfterHellos(old(State()), run, remote)
    {
      hide StateOf, TranscriptFromHellos, DiffieHellman, M.AfterApproval, M.Arm, M.Cancel, Push, Tidy, TableOf,
        SameTalk, Sends, Delivers, Events, Talk, Questions, Replay, Timely;
      var transcript :=
        if run.role.Initiator? then TranscriptFromHellos(run.localHello, remote)
            else TranscriptFromHellos(remote, run.localHello);
      if transcript.Err? {
        return run, Err(transcript.error);
      }
      var shared := DiffieHellman(run.ephemeral, remote.ephemeral);
      if shared.Err? {
        return run, Err(shared.error);
      }
      var informed := Informed(run, remote.identity, transcript.value, shared.value);
      if run.purpose.Initial? {
        Cancel(HandshakeFrame);
        Arm(SasWait, SAS_DECISION_TIMEOUT_SECS);
        Emit(RequestSas(HashOf(transcript.value), remote.identity));
        r, result := informed.(step := Sas), Ok(None);
      } else {
        r, result := AfterApproval(informed);
      }
    }

    method AfterApproval(run: Run) returns (r: Run, result: Result<Option<Candidate>>)
      modifies this`deadlines, this`nextDeadline, this`out
      ensures Stepped(State(), r, result) == M.AfterApproval(old(State()), run)
    {
      hide StateOf, EncodeAuth, M.StepAuthInit, M.RearmFrameDeadline, Push, Tidy, TableOf, SameTalk, Sends, Delivers,
        Events, Talk, Questions, Replay, Timely;
      if run.hash.None? || run.transcript.None? {
        return run, Err(InvalidStateTransition);
      }
      if run.role.Initiator? {
        var auth := EncodeAuth(AuthPayload(run.transcript.value, 0, SignedBy(identity, run.hash.value, true), None));
        if auth.Err? {
          return run, Err(auth.error);
        }
        Emit(Send(auth.value));
        r := run.(step := AuthResp);
      } else {
        r := run.(step := AuthInit);
        if r.early.Some? {
          r, result := StepAuthInit(r.(early := None), r.early.value);
          return;
        }
      }
      RearmFrameDeadline(r.purpose, r.step);
      result := Ok(None);
    }

    /** The run is taken out first, so an error discards it. */
    method DriveRun(f: Frame) returns (result: Result<Option<Candidate>>)
      modifies this`run, this`deadlines, this`nextDeadline, this`out
      ensures (State(), result) == M.DriveRun(old(State()), f)
    {
      hide M.StepRun;
      if run.None? {
        return Err(InvalidStateTransition);
      }
      var taken := run.value;
      run := None;
      var r: Run;
      r, result := StepRun(taken, f);
      if result == Ok(None) {
        run := Some(r);
      }
    }

    // ---------------------------------------------------------------- completion

    method OnSas(approved: bool)
      requires Apart()
      modifies this
      ensures State() == M.OnSas(old(State()), approved)
      ensures Apart() && fresh(Sessions() - old(Sessions()))
    {
      hide StateOf, M.Cancel, M.Terminate, Approve, Tidy, TableOf, SameTalk, Sends, Delivers, Events, Talk, Questions,
        Replay, Timely;
      if !phase.Handshaking? || run.None? || !run.value.step.Sas? {
        return;
      }
      Cancel(SasWait);
      if !approved {
        Terminate(SasDeclined, Some(AuthenticationFailure));
        return;
      }
      ApproveRun();
    }

    method ApproveRun()
      requires Apart() && run.Some?
      modifies this
      ensures State() == Approve(old(State()))
      ensures Apart() && fresh(Sessions() - old(Sessions()))
    {
      hide StateOf, M.AfterApproval, Concluded, Tidy, TableOf, SameTalk, Sends, Delivers, Events, Talk, Questions,
        Replay, Timely;
      var taken := TakeRun();
      var r, result := AfterApproval(taken);
      Conclude(r, result);
    }

    /** Takes the run out of its field. */
    method TakeRun() returns (taken: Run)
      requires run.Some?
      modifies this`run
      ensures taken == old(run).value && State() == old(State()).(run := None)
    {
      taken := run.value;
      run := None;
    }

    method Conclude(r: Run, result: Result<Option<Candidate>>)
      requires Apart()
      modifies this
      ensures State() == Concluded(old(State()), r, result)
      ensures Apart() && fresh(Sessions() - old(Sessions()))
    {
      hide StateOf, M.FailInitial, M.CompleteInitial;
      if result.Err? {
        FailInitial(result.error);
      } else if result.value.Some? {
        CompleteInitial(result.value.value);
      } else {
        run := Some(r);
      }
    }

    method CompleteInitial(c: Candidate)
      requires Apart()
      modifies this
      ensures State() == M.CompleteInitial(old(State()), c)
      ensures Apart() && fresh(Sessions() - old(Sessions()))
    {
      hide StateOf, M.Cancel, M.Arm, Push, NewSession, Tidy, TableOf, SameTalk, Sends, Delivers, Events, Talk,
        Questions, Replay, Timely;
      Cancel(HandshakeFrame);
      Cancel(SasWait);
      Cancel(HandshakeTotal);
      Install(c);
      Opened(c.peer);
    }

    method Install(c: Candidate)
      requires Apart()
      modifies this`active
      ensures State() == old(State()).(active := Some(NewSession(c.keys, c.role, c.peer)))
      ensures active != null && fresh(active.Repr()) && Apart()
    {
      hide NewSession;
      active := new LiveSession(c.keys, c.role, c.peer);
    }

    method Opened(peer: Identity)
      modifies this`phase, this`messages, this`late, this`rejections, this`deadlines, this`nextDeadline, this`out
      ensures State() == Push(M.Arm(old(State()).(phase := Open, messages := 0, late := 0, rejections := 0),
                                    RekeyDue, REKEY_INTERVAL_SECS), Notify(Established(peer)))
    {
      hide M.Arm, Push, Tidy, TableOf, SameTalk, Sends, Delivers, Events, Talk, Questions, Replay, Timely;
      phase, messages, late, rejections := Open, 0, 0, 0;
      assert State() == old(State()).(phase := Open, messages := 0, late := 0, rejections := 0);
      Arm(RekeyDue, REKEY_INTERVAL_SECS);
      Emit(Notify(Established(peer)));
    }

    /** The active session drains and the new one takes its place. */
    method Replace(c: Candidate)
      modifies this`active, this`draining
      ensures State() == Replaced(old(State()), c)
      ensures active != null && fresh(active.Repr()) && draining == old(active)
    {
      hide NewSession;
      draining := active;
      active := new LiveSession(c.keys, c.role, c.peer);
    }

    method CompleteRekey(c: Candidate)
      requires Apart()
      modifies this
      ensures State() == M.CompleteRekey(old(State()), c)
      ensures Apart() && fresh(Sessions() - old(Sessions()))
    {
      hide M.FailRekey, Superseded;
      if active == null || active.peer != c.peer || active.id == IdOf(c.keys) {
        FailRekey(IdentityMismatch);
      } else {
        Supersede(c);
      }
    }

    method Supersede(c: Candidate)
      requires Apart()
      modifies this
      ensures State() == Superseded(old(State()), c)
      ensures Apart() && fresh(Sessions() - old(Sessions()))
    {
      hide StateOf, Disarmed, M.Arm, Replaced, Push, NewSession, Tidy, TableOf, SameTalk, Sends, Delivers, Events, Talk,
        Questions, Replay, Timely;
      Disarm();
      Replace(c);
      assert State() == Replaced(Disarmed(old(State())), c);
      Rested();
    }

    /** Deadlines and counters of a session that has just taken over. */
    method Rested()
      modifies this`messages, this`blocked, this`late, this`rejections, this`deadlines, this`nextDeadline, this`out
      ensures State() == Push(M.Arm(M.Arm(old(State()), Drain, REKEY_DRAIN_TIMEOUT_SECS), RekeyDue, REKEY_INTERVAL_SECS)
                                .(messages := 0, blocked := false, late := 0, rejections := 0), Notify(RekeyCompleted))
    {
      hide M.Arm, Push, Tidy, TableOf, SameTalk, Sends, Delivers, Events, Talk, Questions, Replay, Timely;
      Arm(Drain, REKEY_DRAIN_TIMEOUT_SECS);
      Arm(RekeyDue, REKEY_INTERVAL_SECS);
      ghost var armed := State();
      messages, blocked, late, rejections := 0, false, 0, 0;
      assert State() == armed.(messages := 0, blocked := false, late := 0, rejections := 0);
      Emit(Notify(RekeyCompleted));
    }

    // ---------------------------------------------------------------- rekey

    method BeginRekey()
      modifies this`draws, this`run, this`late, this`blocked, this`deadlines, this`nextDeadline, this`out
      ensures State() == M.BeginRekey(old(State()))
    {
      hide M.StartInitiatorRun, M.FailRekey, M.Arm, M.RearmFrameDeadline, Push, Tidy, TableOf, SameTalk, Sends,
        Delivers, Events, Talk, Questions, Replay, Timely;
      if !phase.Open? || run.Some? || active == null {
        return;
      }
      var started := StartInitiatorRun(Purpose.Rekey, Some(active.id));
      if started.Err? {
        FailRekey(started.error);
        return;
      }
      Arm(HandshakeTotal, HANDSHAKE_TOTAL_TIMEOUT_SECS);
      RearmFrameDeadline(Purpose.Rekey, Hello);
      Emit(Notify(RekeyStarted));
    }

    method NamesActive(commit: CommitPayload) returns (b: bool)
      ensures b == M.NamesActive(State(), commit)
    {
      b := commit.cipherSuite == 1 && commit.purpose.Rekey? && commit.previous.Some?
        && active != null && commit.previous == Some(active.id);
    }

    method OnRekeyFrame(f: Frame)
      requires Apart()
      modifies this
      ensures State() == M.OnRekeyFrame(old(State()), f)
      ensures Apart() && fresh(Sessions() - old(Sessions()))
    {
      hide StateOf, DecodeCommit, M.ResolveGlare, M.OnRekeyFrameIdle, M.DriveRun, M.RekeyDriven, Tidy, TableOf,
        SameTalk, Sends, Delivers, Events, Talk, Questions, Replay, Timely;
      if run.None? {
        OnRekeyFrameIdle(f);
        return;
      }
      var commit := DecodeCommit(f);
      if run.value.role.Initiator? && run.value.step.Hello? && f.messageType.Rekey? && commit.Ok? {
        ResolveGlare(commit.value);
        return;
      }
      var result := DriveRun(f);
      RekeyDriven(result);
    }

    method RekeyDriven(result: Result<Option<Candidate>>)
      requires Apart()
      modifies this
      ensures State() == M.RekeyDriven(old(State()), result)
      ensures Apart() && fresh(Sessions() - old(Sessions()))
    {
      hide StateOf, M.FailRekey, M.CompleteRekey, Tidy, TableOf, SameTalk, Sends, Delivers, Events, Talk, Questions,
        Replay, Timely;
      if result.Err? {
        FailRekey(result.error);
      } else if result.value.Some? {
        CompleteRekey(result.value.value);
      }
    }

    method OnRekeyFrameIdle(f: Frame)
      modifies this
      ensures State() == M.OnRekeyFrameIdle(old(State()), f)
      ensures (active == null || active == old(active)) && (draining == null || draining == old(draining))
    {
      hide DecodeCommit, M.NamesActive, M.OnIncomingCommit, M.OnUnexpected, Tidy, TableOf, SameTalk, Sends, Delivers,
        Events, Talk, Questions, Replay, Timely;
      if f.messageType.Rekey? {
        var commit := DecodeCommit(f);
        if commit.Ok? {
          var named := NamesActive(commit.value);
          if named {
            late := 0;
            OnIncomingCommit(commit.value, true);
            return;
          }
        }
      }
      OnUnexpected(f);
    }

    /** Right after a failed rekey a few late frames are dropped. */
    method OnUnexpected(f: Frame)
      modifies this
      ensures State() == M.OnUnexpected(old(State()), f)
      ensures (active == null || active == old(active)) && (draining == null || draining == old(draining))
    {
      hide M.Terminate, M.NoteRekeyRejection, Tidy, TableOf, SameTalk, Sends, Delivers, Events, Talk, Questions,
        Replay, Timely;
      if late > 0 {
        late := late - 1;
      } else if f.messageType.SessionConfirm? {
        Terminate(ProtocolViolation, Some(ProtocolError));
      } else {
        NoteRekeyRejection();
      }
    }

    method OnIncomingCommit(commit: CommitPayload, announce: bool)
      modifies this`draws, this`run, this`late, this`blocked, this`rejections, this`deadlines, this`nextDeadline,
          this`out
      ensures State() == M.OnIncomingCommit(old(State()), commit, announce)
    {
      hide M.NamesActive, M.StartResponderRun, M.NoteRekeyRejection, M.FailRekey;
      var named := NamesActive(commit);
      if !named {
        NoteRekeyRejection();
        return;
      }
      rejections := 0;
      var started := StartResponderRun(commit, announce);
      if started.Err? {
        FailRekey(started.error);
      }
    }

    /** The greater raw identity key stays initiator. */
    method ResolveGlare(commit: CommitPayload)
      modifies this`draws, this`run, this`late, this`blocked, this`rejections, this`deadlines, this`nextDeadline,
          this`out
      ensures State() == M.ResolveGlare(old(State()), commit)
    {
      hide Disarmed, M.OnIncomingCommit, M.NoteRekeyRejection;
      if active == null {
        return;
      }
      var previous := if run.Some? then run.value.previous else None;
      if commit.previous != previous {
        NoteRekeyRejection();
        return;
      }
      if !LocalIdentityWinsGlare(identity, active.peer) {
        Yield(commit);
      }
    }

    /** The losing side drops its attempt and answers. */
    method Yield(commit: CommitPayload)
      modifies this`draws, this`run, this`late, this`blocked, this`rejections, this`deadlines, this`nextDeadline,
          this`out
      ensures State() == M.OnIncomingCommit(Disarmed(old(State()).(run := None)), commit, false)
    {
      hide Disarmed, M.OnIncomingCommit;
      run := None;
      Disarm();
      OnIncomingCommit(commit, false);
    }

    // ---------------------------------------------------------------- timeouts

    /** Takes a fired deadline off the list; a stale one is not there. */
    method Take(id: nat) returns (kind: Option<DeadlineKind>)
      modifies this`deadlines
      ensures kind == KindOf(old(deadlines), id)
      ensures deadlines == if kind.Some? then Removed(old(deadlines), id) else old(deadlines)
    {
      var found := Find(deadlines, id);
      if found.None? {
        return None;
      }
      kind := Some(deadlines[found.value].kind);
      deadlines := deadlines[..found.value] + deadlines[found.value + 1..];
    }

    method OnTimeout(id: nat)
      modifies this
      ensures State() == M.OnTimeout(old(State()), id)
      ensures (active == null || active == old(active)) && (draining == null || draining == old(draining))
    {
      hide M.Terminate, M.BeginRekey, M.OnHandshakeTimeout, KindOf, Removed;
      var kind := Take(id);
      if kind.None? {
        return;
      }
      match kind.value
      case HandshakeFrame => OnHandshakeTimeout();
      case HandshakeTotal => OnHandshakeTimeout();
      case SasWait => Terminate(Expired, Some(AuthenticationFailure));
      case RekeyDue => OnRekeyDue();
      case Drain => draining := null;
    }

    method OnRekeyDue()
      modifies this`draws, this`run, this`late, this`blocked, this`deadlines, this`nextDeadline, this`out
      ensures State() == M.BeginRekey(old(State()).(blocked := false, late := 0))
    {
      hide M.BeginRekey;
      blocked, late := false, 0;
      BeginRekey();
    }

    method OnHandshakeTimeout()
      modifies this
      ensures State() == M.OnHandshakeTimeout(old(State()))
      ensures (active == null || active == old(active)) && (draining == null || draining == old(draining))
    {
      hide StateOf, M.Terminate, M.FailRekey;
      if phase.Handshaking? {
        Terminate(Expired, Some(ResourceLimit));
      } else if run.Some? {
        FailRekey(TransportTimeout);
      }
    }

    // ---------------------------------------------------------------- DATA

    method OnSend(content: seq<byte>)
      requires Apart()
      modifies this, if active == null then {} else {active.sender}
      ensures State() == M.OnSend(old(State()), content)
      ensures (active == null || active == old(active)) && (draining == null || draining == old(draining))
    {
      hide M.OnSealed, M.SealActive, Push;
      if |content| > MAX_CONTENT {
        Emit(Notify(SendRejected(TooLarge)));
        return;
      }
      if active == null || !phase.Open? {
        Emit(Notify(SendRejected(NotActive)));
        return;
      }
      var frame := SealActive(content);
      OnSealed(frame);
    }

    method OnSealed(frame: Result<Frame>)
      modifies this
      ensures State() == M.OnSealed(old(State()), frame)
      ensures (active == null || active == old(active)) && (draining == null || draining == old(draining))
    {
      hide StateOf, M.Terminate, Carried, Push;
      if frame.Ok? {
        Carry(Send(frame.value));
      } else if frame.error.DataTooLarge? {
        Emit(Notify(SendRejected(TooLarge)));
      } else {
        Terminate(ProtocolViolation, Some(ProtocolError));
      }
    }

    method Carry(e: Effect)
      modifies this`messages, this`draws, this`run, this`late, this`blocked, this`deadlines, this`nextDeadline, this`out
      ensures State() == Carried(old(State()), e)
    {
      hide M.MaybeTriggerRekey, Push;
      messages := messages + 1;
      Emit(e);
      MaybeTriggerRekey();
    }

    method SealActive(content: seq<byte>) returns (frame: Result<Frame>)
      requires Apart() && active != null
      modifies active.sender
      ensures (State(), frame) == M.SealActive(old(State()), content)
    {
      hide SealedFrame, AfterEncrypt;
      frame := active.sender.Encrypt(content);
    }

    method OnData(f: Frame)
      requires Apart()
      modifies this, Sessions()
      ensures State() == M.OnData(old(State()), f)
      ensures (active == null || active == old(active)) && (draining == null || draining == old(draining))
    {
      hide M.DecryptActive, M.OnUndecrypted, Carried;
      if active == null {
        return;
      }
      var content := DecryptActive(f);
      if content.Ok? {
        Carry(Deliver(content.value));
      } else {
        OnUndecrypted(f, content.error);
      }
    }

    method DecryptActive(f: Frame) returns (content: Result<seq<byte>>)
      requires Apart() && active != null
      modifies active.receiver.chain, active.receiver.replay
      ensures (State(), content) == M.DecryptActive(old(State()), f)
    {
      hide Decrypt;
      content := active.receiver.DecryptFrame(f);
    }

    /** The active session refused the frame; the draining one may still take it. */
    method OnUndecrypted(f: Frame, error: Error)
      requires Apart()
      modifies this, ReprOf(draining)
      ensures State() == M.OnUndecrypted(old(State()), f, error)
      ensures (active == null || active == old(active)) && (draining == null || draining == old(draining))
    {
      hide StateOf, M.DecryptDraining, M.Terminate, Push, CanonicalMap.IsMalformed;
      var content := DecryptDraining(f);
      if content.Some? {
        Emit(Deliver(content.value));
      } else if CanonicalMap.IsMalformed(error) {
        Terminate(ProtocolViolation, Some(ProtocolError));
      } else {
        Emit(Notify(DataRejected));
      }
    }

    method DecryptDraining(f: Frame) returns (content: Option<seq<byte>>)
      requires Apart()
      modifies ReprOf(draining)
      ensures (State(), content) == M.DecryptDraining(old(State()), f)
    {
      hide Decrypt;
      if draining == null {
        return None;
      }
      var result := draining.receiver.DecryptFrame(f);
      content := if result.Ok? then Some(result.value) else None;
    }

    method MaybeTriggerRekey()
      modifies this`draws, this`run, this`late, this`blocked, this`deadlines, this`nextDeadline, this`out
      ensures State() == M.MaybeTriggerRekey(old(State()))
    {
      hide StateOf, M.BeginRekey;
      if messages >= limit && !blocked && run.None? {
        BeginRekey();
      }
    }

    // ---------------------------------------------------------------- CLOSE and frames

    method OnCloseFrame(f: Frame)
      modifies this
      ensures State() == M.OnCloseFrame(old(State()), f)
      ensures (active == null || active == old(active)) && (draining == null || draining == old(draining))
    {
      hide DecodeClose, M.Terminate, M.Cancel;
      var close := DecodeClose(f);
      if close.Err? {
        Terminate(ProtocolViolation, Some(ProtocolError));
        return;
      }
      var id, reason := close.value.sessionId, close.value.reason;
      if phase.Handshaking? {
        if id.None? {
          Terminate(PeerUnauthenticated(reason), None);
        }
      } else if id.Some? && active != null && id.value == active.id {
        Terminate(PeerUnauthenticated(reason), None);
      } else if id.Some? && draining != null && id.value == draining.id {
        draining := null;
        Cancel(Drain);
      }
    }

    method OnFrame(f: Frame)
      requires Apart()
      modifies this, Sessions()
      ensures State() == M.OnFrame(old(State()), f)
      ensures Apart() && fresh(Sessions() - old(Sessions()))
    {
      hide StateOf, M.Terminate, M.OnFrameHandshaking, M.OnData, M.OnCloseFrame, M.OnRekeyFrame;
      if phase.Handshaking? {
        OnFrameHandshaking(f);
      } else if phase.Open? {
        match f.messageType
        case Data => OnData(f);
        case Close => OnCloseFrame(f);
        case Rekey => OnRekeyFrame(f);
        case SessionConfirm => OnRekeyFrame(f);
        case Handshake => Terminate(ProtocolViolation, Some(ProtocolError));
      } else {
        Terminate(ProtocolViolation, Some(ProtocolError));
      }
    }

    method OnFrameHandshaking(f: Frame)
      requires Apart()
      modifies this
      ensures State() == M.OnFrameHandshaking(old(State()), f)
      ensures Apart() && fresh(Sessions() - old(Sessions()))
    {
      hide StateOf, M.OnCloseFrame, M.AcceptFirstCommit, M.DriveRun, M.FailInitial, M.CompleteInitial;
      if f.messageType.Close? {
        OnCloseFrame(f);
      } else if run.None? {
        var accepted := AcceptFirstCommit(f);
        if accepted.Err? {
          FailInitial(accepted.error);
        }
      } else {
        var result := DriveRun(f);
        if result.Err? {
          FailInitial(result.error);
        } else if result.value.Some? {
          CompleteInitial(result.value.value);
        }
      }
    }

    method AcceptFirstCommit(f: Frame) returns (result: Result<()>)
      modifies this`draws, this`run, this`deadlines, this`nextDeadline, this`out
      ensures (State(), result) == M.AcceptFirstCommit(old(State()), f)
    {
      hide StateOf, DecodeCommit, M.StartResponderRun;
      var commit := DecodeCommit(f);
      if commit.Err? {
        return Err(commit.error);
      }
      if commit.value.cipherSuite != 1 || !commit.value.purpose.Initial? || commit.value.previous.Some? {
        return Err(InvalidHandshake);
      }
      result := StartResponderRun(commit.value, true);
    }

    // ---------------------------------------------------------------- one input

    /** Consumes one input and returns the effects to perform, in order. */
    method HandleInput(input: Input) returns (effects: seq<Effect>)
      requires Apart()
      modifies this, Sessions()
      ensures State() == Handle(old(State()), input) && effects == State().out
      ensures Apart() && fresh(Sessions() - old(Sessions()))
    {
      hide StateOf, Respond;
      out := [];
      if !phase.Ended? {
        Dispatch(input);
      }
      effects := out;
    }

    method Dispatch(input: Input)
      requires Apart()
      modifies this, Sessions()
      ensures State() == Respond(old(State()), input)
      ensures Apart() && fresh(Sessions() - old(Sessions()))
    {
      hide StateOf, M.OnFrame, StartMachine, M.OnSas, M.OnSend, M.Terminate, M.BeginRekey, M.OnTimeout;
      match input
      case Start => Start();
      case FrameReceived(f) => OnFrame(f);
      case SasDecision(approved) => OnSas(approved);
      case LocalSend(content) => OnSend(content);
      case LocalClose(reason) => Terminate(Local, Some(reason));
      case RequestRekey => BeginRekey();
      case Timeout(id) => OnTimeout(id);
      case TransportClosed => Terminate(TransportLost, None);
      case Malformed(respond) => Terminate(ProtocolViolation, if respond then Some(ProtocolError) else None);
    }

    /** Lowers the message count that triggers a rekey, to one at the least. */
    method SetRekeyMessageLimit(most: nat)
      modifies this`limit
      ensures State() == old(State()).(limit := if most > 1 then most else 1)
    {
      limit := if most > 1 then most else 1;
    }

    /** The deadlines of a valid engine stay few. */
    method ArmedDeadlines() returns (n: nat)
      requires EngineInvariants.Valid(State())
      ensures n == |deadlines| <= 4
    {
      EngineInvariants.ArmedBound(State());
      n := |deadlines|;
    }
  }
}
