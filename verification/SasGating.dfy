/** Nothing that authenticates leaves an engine before its user approved the short authentication string. */
module SasGating {
  import opened Protocol
  import opened Symbolic
  import opened Data
  import opened Machine
  import opened EngineInvariants
  import opened RekeyIsolation

  datatype FrameKind = CommitKind | HelloKind | AuthKind | ConfirmKind | OtherKind

  function KindOfFrame(f: Frame): FrameKind {
    match f.body
    case CommitBody(_) => CommitKind
    case HelloBody(_) => HelloKind
    case AuthBody(_) => AuthKind
    case ConfirmBody(_) => ConfirmKind
    case _ => OtherKind
  }

  /** What the user is asked: does the peer see the words of this hash, and is it this identity? */
  datatype Question = Question(hash: Hash, peer: Identity)

  /**
   * What an observer of inputs and effects has seen: the kinds of frame sent before Established apart from
   * CLOSE, the questions asked, the decision that first followed one, whether the connection was reported
   * established, and whether an AUTH, a SESSION_CONFIRM or Established came without approval or Established
   * named someone whom the user was not asked about.
   */
  datatype History = History(
    sent: seq<FrameKind>, asked: seq<Question>, approved: bool, refused: bool, established: bool, ungated: bool)

  const NOTHING_SEEN := History([], [], false, false, false, false)

  predicate Authenticates(f: Frame) {
    f.messageType.SessionConfirm? || (f.messageType.Handshake? && f.body.AuthBody?)
  }

  function Note(h: History, e: Effect): History {
    match e
    case Send(f) =>
      if f.messageType.Close? then h
      else h.(sent := if h.established then h.sent else h.sent + [KindOfFrame(f)],
              ungated := h.ungated || (!h.approved && Authenticates(f)))
    case RequestSas(hash, peer) => h.(asked := h.asked + [Question(hash, peer)])
    case Notify(Established(peer)) =>
      h.(established := true, ungated := h.ungated || !h.approved || |h.asked| != 1 || h.asked[0].peer != peer)
    case _ => h
  }

  function NoteAll(h: History, talk: seq<Effect>): History {
    if talk == [] then h else Note(NoteAll(h, talk[..|talk| - 1]), talk[|talk| - 1])
  }

  /** The first decision after a question counts, and no later one. */
  function NoteInput(h: History, input: Input): History {
    if !input.SasDecision? || h.asked == [] || h.approved || h.refused then h
    else if input.approved then h.(approved := true)
    else h.(refused := true)
  }

  /** What was seen of the first `n` inputs of a run. */
  function HistoryOf(states: seq<Machine>, inputs: seq<Input>, n: nat): History
    requires n <= |inputs| && |states| == |inputs| + 1
  {
    if n == 0 then NOTHING_SEEN
    else NoteAll(NoteInput(HistoryOf(states, inputs, n - 1), inputs[n - 1]), Talk(states[n].out))
  }

  function Seen(h: History, m: Machine): History {
    NoteAll(h, Talk(m.out))
  }

  // ------------------------------------------------------------------ the gate

  function Sequence(role: Role): seq<FrameKind> {
    if role.Initiator? then [CommitKind, HelloKind, AuthKind, ConfirmKind] else [HelloKind, AuthKind, ConfirmKind]
  }

  function SentAt(role: Role, step: Step): (n: nat)
    ensures n <= |Sequence(role)|
  {
    match step
    case Hello => 1
    case Reveal => 1
    case Sas => if role.Initiator? then 2 else 1
    case AuthResp => 3
    case AuthInit => 1
    case ConfirmResp => if role.Initiator? then 4 else 3
    case ConfirmInit => 2
  }

  /** The question that a run whose transcript is known has put to the user. */
  function AskedIn(run: Run): seq<Question> {
    if run.hash.Some? && run.remoteIdentity.Some? then [Question(run.hash.value, run.remoteIdentity.value)] else []
  }

  /** The history of an initial run at this step. */
  function AtStep(role: Role, step: Step, asked: seq<Question>): History {
    History(Sequence(role)[..SentAt(role, step)], asked, !step.Hello? && !step.Reveal? && !step.Sas?,
            false, false, false)
  }

  function AtEnd(role: Role, asked: seq<Question>): History {
    History(Sequence(role), asked, true, false, false, false)
  }

  /**
   * What holds at every moment: there is one question at most; without an approval no frame but COMMIT and
   * HELLO is sent; and it is established only with approval.
   */
  predicate Gated(role: Role, h: History) {
    !h.ungated && |h.asked| <= 1 && h.sent <= Sequence(role) && !(h.approved && h.refused)
        && (!h.approved ==> |h.sent| <= SentAt(role, Sas))
        && (h.established ==> h.approved && |h.asked| == 1 && h.sent == Sequence(role))
  }

  /** The hash of the initial handshake that a chain of rekeys goes back to. */
  function Root(id: SessionId): Option<Hash> {
    match id
    case ForeignId(_) => None
    case IdOf(keys) =>
      match keys.hash.transcript.previous
      case None => Some(keys.hash)
      case Some(previous) => Root(previous)
  }

  /** The session comes down from the handshake that the user was asked about, with the peer named then. */
  predicate AskedAbout(s: Session, asked: seq<Question>) {
    |asked| == 1 && s.peer == asked[0].peer && Root(s.id) == Some(asked[0].hash)
  }

  predicate Gate(m: Machine, h: History) {
    match m.phase
    case Idle => h == NOTHING_SEEN
    case Handshaking =>
      h == if m.run.Some? then AtStep(m.role, m.run.value.step, AskedIn(m.run.value)) else NOTHING_SEEN
    case Open =>
      h == AtEnd(m.role, h.asked).(established := true) && m.active.Some? && AskedAbout(m.active.value, h.asked)
    case Ended => Gated(m.role, h)
  }

  // One observation.

  lemma SeenPush(h: History, m: Machine, e: Effect)
    ensures Seen(h, Push(m, e)) == if IsTimer(e) then Seen(h, m) else Note(Seen(h, m), e)
  {
    assert Talk(m.out) + [] == Talk(m.out);
    assert (Talk(m.out) + [e])[..|Talk(m.out)|] == Talk(m.out);
  }

  lemma AtStepGated(role: Role, step: Step, asked: seq<Question>)
    requires |asked| <= 1
    ensures Gated(role, AtStep(role, step, asked)) && Gated(role, AtStep(role, step, asked).(approved := true))
    ensures step.Sas? ==> Gated(role, AtStep(role, step, asked).(refused := true))
    ensures Gated(role, AtEnd(role, asked)) && (|asked| == 1 ==> Gated(role, AtEnd(role, asked).(established := true)))
  {
  }

  /** Each frame of the sequence takes the history from one step to a next one. */
  lemma FrameAdvances(role: Role, f: Frame, asked: seq<Question>)
    requires !f.messageType.Close?
    ensures role.Initiator? && KindOfFrame(f).CommitKind? && f.messageType.Handshake? ==>
              Note(NOTHING_SEEN, Send(f)) == AtStep(role, Hello, [])
    ensures role.Responder? && KindOfFrame(f).HelloKind? && f.messageType.Handshake? ==>
              Note(NOTHING_SEEN, Send(f)) == AtStep(role, Reveal, [])
    ensures role.Initiator? && KindOfFrame(f).AuthKind? ==>
              Note(AtStep(role, Sas, asked).(approved := true), Send(f)) == AtStep(role, AuthResp, asked)
    ensures role.Initiator? && KindOfFrame(f).ConfirmKind? ==>
              Note(AtStep(role, AuthResp, asked), Send(f)) == AtStep(role, ConfirmResp, asked)
    ensures role.Responder? && KindOfFrame(f).AuthKind? ==>
              Note(AtStep(role, AuthInit, asked), Send(f)) == AtStep(role, ConfirmInit, asked)
    ensures role.Responder? && KindOfFrame(f).ConfirmKind? ==>
              Note(AtStep(role, ConfirmInit, asked), Send(f)) == AtEnd(role, asked)
  {
  }

  /** Both HELLOs are out and the question is due. */
  function Revealed(role: Role): History {
    AtStep(role, Sas, [])
  }

  lemma QuestionAdvances(role: Role, hash: Hash, peer: Identity)
    ensures Note(Revealed(role), RequestSas(hash, peer)) == AtStep(role, Sas, [Question(hash, peer)])
  {
  }

  lemma RevealedGated(role: Role)
    ensures Gated(role, Revealed(role))
  {
  }

  lemma GateGates(m: Machine, h: History)
    requires Gate(m, h)
    ensures Gated(m.role, h)
  {
    NothingGated(m.role);
    if m.phase.Open? {
      AtStepGated(m.role, Hello, h.asked);
    }
    if m.phase.Handshaking? && m.run.Some? {
      AtStepGated(m.role, m.run.value.step, AskedIn(m.run.value));
    }
  }

  lemma NothingGated(role: Role)
    ensures Gated(role, NOTHING_SEEN)
  {
    assert [] == Sequence(role)[..0];
  }

  // ------------------------------------------------------------------ initial handshake

  lemma TerminateSeen(h: History, m: Machine, cause: CloseCause, notifyPeer: Option<CloseReason>)
    ensures var r := Terminate(m, cause, notifyPeer);
            Seen(h, r) == Seen(h, m) && r.phase.Ended? && r.role == m.role
  {
    hide CancelAll, NoteAll;
    var c := CancelAll(m);
    var close := EncodeClose(ClosePayload(ActiveId(c), if notifyPeer.Some? then notifyPeer.value else Normal));
    var told := if notifyPeer.Some? then Push(c, Send(close)) else c;
    SeenPush(h, c, Send(close));
    SeenPush(h, told, Notify(Closed(cause)));
    SeenPush(h, Push(told, Notify(Closed(cause))), CloseTransport);
  }

  lemma FailInitialSeen(h: History, m: Machine, error: Error)
    ensures var r := FailInitial(m, error);
            Seen(h, r) == Seen(h, m) && r.phase.Ended? && r.role == m.role
  {
    hide Terminate, Seen;
    TerminateSeen(h, m, SasDeclined, Some(AuthenticationFailure));
    TerminateSeen(h, m, Unauthentic, Some(AuthenticationFailure));
    TerminateSeen(h, m, Unauthentic, Some(IdentityChanged));
    TerminateSeen(h, m, ProtocolViolation, Some(ProtocolError));
  }

  /** The run of an initial handshake, taken out of its engine. */
  predicate InitialRun(m: Machine, run: Run) {
    run.purpose.Initial? && run.role == m.role && RunValid(m.identity, None, run)
  }

  /** What one step of an initial run sends: the next frame of the sequence, or nothing and an end. */
  predicate StepSeen(h: History, role: Role, run: Run, s: Stepped) {
    match s.result
    case Ok(None) => Seen(h, s.machine) == AtStep(role, s.run.step, AskedIn(s.run))
    case Ok(Some(_)) => Seen(h, s.machine) == AtEnd(role, AskedIn(run))
    case Err(_) => Gated(role, Seen(h, s.machine))
  }

  lemma AuthInitSeen(h: History, m: Machine, run: Run, f: Frame)
    requires InitialRun(m, run) && run.step.AuthInit? && Seen(h, m) == AtStep(m.role, AuthInit, AskedIn(run))
    ensures StepSeen(h, m.role, run, StepAuthInit(m, run, f))
  {
    hide DecodeAuth, VerifyAuth, RearmFrameDeadline, NoteAll, Note, AtStep, Gated, Push;
    AtStepGated(m.role, AuthInit, AskedIn(run));
    var s := StepAuthInit(m, run, f);
    if s.result.Ok? {
      var auth, keys := DecodeAuth(f).value, VerifyAuth(run, DecodeAuth(f).value).value;
      var response := EncodeAuth(AuthPayload(run.transcript.value, 1, auth.initiatorSignature,
          Some(SignedBy(m.identity, keys.hash, false))));
      SeenPush(h, m, Send(response.value));
      FrameAdvances(m.role, response.value, AskedIn(run));
    }
  }

  lemma ApprovalSeen(h: History, m: Machine, run: Run)
    requires InitialRun(m, run) && run.step.Sas? && Seen(h, m) == AtStep(m.role, Sas, AskedIn(run)).(approved := true)
    ensures StepSeen(h, m.role, run, AfterApproval(m, run))
  {
    hide RearmFrameDeadline, StepAuthInit, NoteAll, Note, Gated, Push;
    AtStepGated(m.role, Sas, AskedIn(run));
    if run.role.Initiator? {
      var auth := EncodeAuth(AuthPayload(run.transcript.value, 0, SignedBy(m.identity, run.hash.value, true), None));
      SeenPush(h, m, Send(auth.value));
      FrameAdvances(m.role, auth.value, AskedIn(run));
    } else if run.early.Some? {
      AuthInitSeen(h, m, Approved(run), run.early.value);
    }
  }

  lemma AfterHellosSeen(h: History, m: Machine, run: Run, remote: HelloPayload)
    requires run.purpose.Initial? && Seen(h, m) == Revealed(m.role)
    ensures StepSeen(h, m.role, run, AfterHellos(m, run, remote))
    ensures AfterHellos(m, run, remote).result.Ok? ==> AfterHellos(m, run, remote).result.value.None?
  {
    hide Arm, Cancel, NoteAll, Note, AtStep, Revealed, Gated, Push;
    var hellos := if run.role.Initiator? then (run.localHello, remote) else (remote, run.localHello);
    var transcript := TranscriptFromHellos(hellos.0, hellos.1);
    if transcript.Ok? {
      var asking := Arm(Cancel(m, HandshakeFrame), SasWait, SAS_DECISION_TIMEOUT_SECS);
      SeenPush(h, asking, RequestSas(HashOf(transcript.value), remote.identity));
      QuestionAdvances(m.role, HashOf(transcript.value), remote.identity);
    }
    RevealedGated(m.role);
  }

  lemma HelloSeen(h: History, m: Machine, run: Run, f: Frame)
    requires InitialRun(m, run) && run.step.Hello? && Seen(h, m) == AtStep(m.role, Hello, [])
    ensures StepSeen(h, m.role, run, StepHello(m, run, f))
  {
    hide DecodeHello, AfterHellos, CheckRemoteHello, NoteAll, Note, AtStep, Seen, Gated, TranscriptFits, KeysFit;
    AtStepGated(m.role, Hello, []);
    if DecodeHello(f).Ok? {
      var sent := Push(m, Send(HelloFrame(run.localHello)));
      SeenPush(h, m, Send(HelloFrame(run.localHello)));
      RevealSent(run.localHello);
      AfterHellosSeen(h, sent, run.(localHelloFrame := None), DecodeHello(f).value);
    }
  }

  lemma RevealSent(hello: HelloPayload)
    ensures hello.purpose.Initial? ==>
              Note(AtStep(Initiator, Hello, []), Send(HelloFrame(hello))) == Revealed(Initiator)
  {
  }

  lemma RevealSeen(h: History, m: Machine, run: Run, f: Frame)
    requires InitialRun(m, run) && run.step.Reveal? && Seen(h, m) == AtStep(m.role, Reveal, [])
    ensures StepSeen(h, m.role, run, StepReveal(m, run, f))
  {
    hide DecodeHello, AfterHellos, CheckRemoteHello, NoteAll, Note, Seen, Gated, TranscriptFits, KeysFit;
    AtStepGated(m.role, Reveal, []);
    if DecodeHello(f).Ok? {
      AfterHellosSeen(h, m, run, DecodeHello(f).value);
    }
  }

  lemma AuthRespSeen(h: History, m: Machine, run: Run, f: Frame)
    requires InitialRun(m, run) && run.step.AuthResp? && Seen(h, m) == AtStep(m.role, AuthResp, AskedIn(run))
    ensures StepSeen(h, m.role, run, StepAuthResp(m, run, f))
  {
    hide DecodeAuth, VerifyAuth, RearmFrameDeadline, NoteAll, Note, AtStep, Gated, Push;
    AtStepGated(m.role, AuthResp, AskedIn(run));
    if DecodeAuth(f).Ok? && VerifyAuth(run, DecodeAuth(f).value).Ok? {
      var keys := VerifyAuth(run, DecodeAuth(f).value).value;
      var confirm := EncodeConfirm(ConfirmPayload(IdOf(keys), Initiator, MacOf(keys, keys.hash, true)));
      SeenPush(h, m, Send(confirm));
      FrameAdvances(m.role, confirm, AskedIn(run));
    }
  }

  lemma ConfirmSeen(h: History, m: Machine, run: Run, f: Frame)
    requires InitialRun(m, run) && (run.step.ConfirmResp? || run.step.ConfirmInit?)
        && Seen(h, m) == AtStep(m.role, run.step, AskedIn(run))
    ensures StepSeen(h, m.role, run, if run.step.ConfirmResp? then StepConfirmResp(m, run, f)
        else StepConfirmInit(m, run, f))
  {
    hide DecodeConfirm, VerifyConfirm, NoteAll, Note, AtStep, Gated, Push;
    AtStepGated(m.role, run.step, AskedIn(run));
    ConfirmEnds(AskedIn(run));
    var reply := EncodeConfirm(ConfirmPayload(IdOf(run.keys.value), Responder,
        MacOf(run.keys.value, run.hash.value, false)));
    SeenPush(h, m, Send(reply));
    FrameAdvances(m.role, reply, AskedIn(run));
  }

  lemma ConfirmEnds(asked: seq<Question>)
    ensures AtStep(Initiator, ConfirmResp, asked) == AtEnd(Initiator, asked)
    ensures |asked| <= 1 ==> Gated(Responder, AtEnd(Responder, asked))
  {
  }

  lemma RunSeen(h: History, m: Machine, run: Run, f: Frame)
    requires InitialRun(m, run) && Seen(h, m) == AtStep(m.role, run.step, AskedIn(run))
    ensures StepSeen(h, m.role, run, StepRun(m, run, f))
  {
    hide Seen, AtStep, Gated, StepHello, StepReveal, StepAuthResp, StepAuthInit, StepConfirmResp, StepConfirmInit;
    match run.step {
      case Hello => HelloSeen(h, m, run, f);
      case Reveal => RevealSeen(h, m, run, f);
      case Sas => AtStepGated(m.role, run.step, AskedIn(run));
      case AuthResp => AuthRespSeen(h, m, run, f);
      case AuthInit => AuthInitSeen(h, m, run, f);
      case _ => ConfirmSeen(h, m, run, f);
    }
  }

  lemma CompleteInitialSeen(h: History, m: Machine, c: Candidate)
    requires Seen(h, m) == AtEnd(m.role, [Question(c.keys.hash, c.peer)]) && c.keys.hash.transcript.previous.None?
    ensures Gate(CompleteInitial(m, c), Seen(h, CompleteInitial(m, c))) && CompleteInitial(m, c).role == m.role
  {
    hide Arm, Cancel;
  }

  lemma HandshakingFrameGate(h: History, m: Machine, f: Frame)
    requires Valid(m) && m.phase.Handshaking? && Gate(m, Seen(h, m))
    ensures var r := OnFrameHandshaking(m, f);
            Gate(r, Seen(h, r)) && r.role == m.role
  {
    hide FailInitial, CompleteInitial, AcceptFirstCommit, StepRun, OnCloseFrame, Seen, AtStep, AtEnd, Gated, Tidy,
      TableOf;
    GateGates(m, Seen(h, m));
    if f.messageType.Close? {
      CloseGate(h, m, f);
    } else if m.run.None? {
      AcceptCommitGate(h, m, f);
      var (r, accepted) := AcceptFirstCommit(m, f);
      if accepted.Err? {
        FailInitialSeen(h, r, accepted.error);
      }
    } else {
      var taken := m.(run := None);
      SeenSame(h, m, taken);
      assert taken.(run := Some(m.run.value)) == m;
      RunSeen(h, taken, m.run.value, f);
      StepRunKeeps(taken, m.run.value, f);
      var s := StepRun(taken, m.run.value, f);
      SeenSame(h, s.machine, s.machine.(run := Some(s.run)));
      if s.result.Err? {
        FailInitialSeen(h, s.machine, s.result.error);
      } else if s.result.value.Some? {
        CandidateAsked(taken, m.run.value, s.result.value.value);
        CompleteInitialSeen(h, s.machine, s.result.value.value);
      }
    }
  }

  /** What an initial run completes with is what it asked about. */
  lemma CandidateAsked(m: Machine, run: Run, c: Candidate)
    requires InitialRun(m, run) && CandidateFits(run, c)
    ensures AskedIn(run) == [Question(c.keys.hash, c.peer)] && c.keys.hash.transcript.previous.None?
  {
    hide Binds;
  }

  lemma SeenSame(h: History, m: Machine, r: Machine)
    requires m.out == r.out
    ensures Seen(h, m) == Seen(h, r)
  {
  }

  lemma CloseGate(h: History, m: Machine, f: Frame)
    requires m.phase.Handshaking? && Gate(m, Seen(h, m))
    ensures var r := OnCloseFrame(m, f);
            Gate(r, Seen(h, r)) && r.role == m.role
  {
    hide Terminate, Seen, AtStep, Gated;
    GateGates(m, Seen(h, m));
    TerminateSeen(h, m, ProtocolViolation, Some(ProtocolError));
    if DecodeClose(f).Ok? {
      TerminateSeen(h, m, PeerUnauthenticated(DecodeClose(f).value.reason), None);
    }
  }

  lemma AcceptCommitGate(h: History, m: Machine, f: Frame)
    requires Valid(m) && m.phase.Handshaking? && m.run.None? && Seen(h, m) == NOTHING_SEEN
    ensures var (r, result) := AcceptFirstCommit(m, f);
            r.role == m.role
            && (result.Ok? ==>
                  r.phase.Handshaking? && r.run.Some?
                  && Seen(h, r) == AtStep(r.role, r.run.value.step, AskedIn(r.run.value)))
            && (result.Err? ==> Seen(h, r) == NOTHING_SEEN)
  {
    hide DecodeCommit, StartResponderRun, RearmFrameDeadline, NoteAll, Note, AtStep, Push, Tidy, TableOf, RunValid;
    if DecodeCommit(f).Ok? {
      var commit := DecodeCommit(f).value;
      if commit.cipherSuite == 1 && commit.purpose.Initial? && commit.previous.None? {
        var hello := HelloFrame(LocalHello(m, 1, Initial, Responder, None));
        ResponderStarts(m, commit, true);
        SeenPush(h, Drawn(m), Send(hello));
        SeenSame(h, m, Drawn(m));
        FrameAdvances(m.role, hello, []);
        AnsweringRun(m, commit);
      }
    }
  }

  lemma AnsweringRun(m: Machine, commit: CommitPayload)
    ensures var r := Answering(m, commit);
            r.run == Some(ResponderRun(m, commit)) && r.role == m.role && r.phase == m.phase
            && r.out == Push(Drawn(m), Send(HelloFrame(ResponderRun(m, commit).localHello))).out
  {
  }

  lemma OnSasGate(h: History, m: Machine, approved: bool)
    requires Valid(m) && Gate(m, h) && m.out == []
    ensures var r := OnSas(m, approved);
            Gate(r, Seen(NoteInput(h, SasDecision(approved)), r)) && r.role == m.role
  {
    hide Cancel, Terminate, FailInitial, CompleteInitial, AfterApproval, NoteAll, Note, AtEnd, Approvable, Tidy,
      TableOf;
    var h' := NoteInput(h, SasDecision(approved));
    GateGates(m, h);
    NothingYet(h', m);
    if m.phase.Handshaking? && m.run.Some? && m.run.value.step.Sas? {
      var rest := Cancel(m, SasWait);
      if approved {
        var taken := rest.(run := None);
        SeenSame(h', rest, taken);
        ApprovalSeen(h', taken, m.run.value);
        var s := AfterApproval(taken, m.run.value);
        SasApprovable(m);
        AfterApprovalKeeps(taken, m.run.value);
        SeenSame(h', s.machine, s.machine.(run := Some(s.run)));
        if s.result.Err? {
          FailInitialSeen(h', s.machine, s.result.error);
        }
      } else {
        TerminateSeen(h', rest, SasDeclined, Some(AuthenticationFailure));
      }
    }
  }

  lemma NothingYet(h: History, m: Machine)
    requires m.out == []
    ensures Seen(h, m) == h
  {
  }

  // ------------------------------------------------------------------ established

  /** Once established, only another question or report could change the history. */
  lemma {:induction false} OnlyQuestionsCount(h: History, out: seq<Effect>)
    requires h.established && h.approved && Questions(out) == 0 && NoneEstablished(Events(out))
    ensures NoteAll(h, Talk(out)) == h
    decreases |out|
  {
    if out != [] {
      var n := |out| - 1;
      assert out[n].Notify? ==> out[n].event in Events(out);
      assert forall e :: e in Events(out[..n]) ==> e in Events(out);
      OnlyQuestionsCount(h, out[..n]);
      if !IsTimer(out[n]) {
        assert (Talk(out[..n]) + [out[n]])[..|Talk(out[..n])|] == Talk(out[..n]);
      } else {
        assert Talk(out) == Talk(out[..n]);
      }
    }
  }

  predicate NoneEstablished(events: seq<Event>) {
    forall e :: e in events ==> !e.Established?
  }

  /** The step asked nothing, reported no Established and left the engine established or ended. */
  predicate Mute(m: Machine, r: Machine) {
    (NoneEstablished(Events(m.out)) ==> NoneEstablished(Events(r.out)))
    && Questions(r.out) == Questions(m.out) && r.role == m.role && (r.phase.Open? || r.phase.Ended?)
  }

  lemma TerminateMute(m: Machine, cause: CloseCause, notifyPeer: Option<CloseReason>)
    ensures Mute(m, Terminate(m, cause, notifyPeer))
  {
    hide CancelAll;
  }

  lemma FailRekeyMute(m: Machine, error: Error)
    requires m.phase.Open?
    ensures Mute(m, FailRekey(m, error))
  {
    hide Cancel, Arm;
  }

  lemma BeginRekeyMute(m: Machine)
    requires m.phase.Open?
    ensures Mute(m, BeginRekey(m))
  {
    hide Arm, RearmFrameDeadline, StartInitiatorRun, InitiatorRun, FailRekey;
    if m.active.Some? {
      InitiatorStarts(m, Purpose.Rekey, ActiveId(m));
    }
  }

  lemma TriggerMute(m: Machine)
    requires m.phase.Open?
    ensures Mute(m, MaybeTriggerRekey(m))
  {
    hide BeginRekey;
    BeginRekeyMute(m);
  }

  lemma IncomingCommitMute(m: Machine, commit: CommitPayload, announce: bool)
    requires m.phase.Open?
    ensures Mute(m, OnIncomingCommit(m, commit, announce))
  {
    hide Arm, RearmFrameDeadline, StartResponderRun, ResponderRun, FailRekey;
    if NamesActive(m, commit) {
      ResponderStarts(m.(rejections := 0), commit, announce);
    }
  }

  lemma CompleteRekeyMute(m: Machine, c: Candidate)
    requires m.phase.Open?
    ensures Mute(m, CompleteRekey(m, c))
  {
    hide Cancel, Arm, FailRekey;
    FailRekeyMute(m, IdentityMismatch);
  }

  lemma IdleFrameMute(m: Machine, f: Frame)
    requires m.phase.Open?
    ensures Mute(m, OnRekeyFrameIdle(m, f))
  {
    hide Terminate, OnIncomingCommit, DecodeCommit, NamesActive;
    TerminateMute(m, ProtocolViolation, Some(ProtocolError));
    if DecodeCommit(f).Ok? {
      IncomingCommitMute(m.(late := 0), DecodeCommit(f).value, true);
    }
  }

  lemma GlareMute(m: Machine, commit: CommitPayload)
    requires m.phase.Open?
    ensures Mute(m, ResolveGlare(m, commit))
  {
    hide OnIncomingCommit, Cancel;
    IncomingCommitMute(Cancel(Cancel(m.(run := None), HandshakeFrame), HandshakeTotal), commit, false);
  }

  lemma RekeyFrameMute(m: Machine, f: Frame)
    requires Valid(m) && m.phase.Open?
    ensures Mute(m, OnRekeyFrame(m, f))
  {
    hide OnRekeyFrameIdle, ResolveGlare, FailRekey, CompleteRekey, DriveRun, DecodeCommit, Mute, Valid;
    IdleFrameMute(m, f);
    if DecodeCommit(f).Ok? {
      GlareMute(m, DecodeCommit(f).value);
    }
    if m.run.Some? {
      RunMute(m, f);
    }
  }

  lemma RunMute(m: Machine, f: Frame)
    requires Valid(m) && m.phase.Open? && m.run.Some?
    ensures var (r, result) := DriveRun(m, f);
            match result
            case Ok(None) => Mute(m, r)
            case Ok(Some(c)) => Mute(m, CompleteRekey(r, c))
            case Err(error) => Mute(m, FailRekey(r, error))
  {
    hide FailRekey, CompleteRekey, StepRun, Tidy, TableOf, RunValid;
    DriveRunKeeps(m, f);
    StepRunSilent(m.(run := None), m.run.value, f);
    var (r, result) := DriveRun(m, f);
    if result.Err? {
      FailRekeyMute(r, result.error);
    } else if result.value.Some? {
      CompleteRekeyMute(r, result.value.value);
    }
  }

  lemma SendMute(m: Machine, content: seq<byte>)
    requires m.phase.Open?
    ensures Mute(m, OnSend(m, content))
  {
    hide MaybeTriggerRekey, Terminate, SealedFrame, Sends, Delivers, Events, Talk, Questions;
    TerminateMute(m, ProtocolViolation, Some(ProtocolError));
    if |content| <= MAX_CONTENT && m.active.Some? {
      var sender := m.active.value.sender;
      var active := m.active.value.(sender := AfterEncrypt(sender));
      TriggerMute(MovedOn(m, active, Send(SealedFrame(sender, content))));
    }
  }

  lemma UndecryptedMute(m: Machine, f: Frame, error: Error)
    requires m.phase.Open?
    ensures Mute(m, OnUndecrypted(m, f, error))
  {
    hide Terminate, Decrypt;
    TerminateMute(DecryptDraining(m, f).0, ProtocolViolation, Some(ProtocolError));
  }

  lemma DataMute(m: Machine, f: Frame)
    requires m.phase.Open?
    ensures Mute(m, OnData(m, f))
  {
    hide MaybeTriggerRekey, OnUndecrypted, Decrypt;
    if m.active.Some? {
      var (receiver, result) := Decrypt(m.active.value.receiver, f);
      var active := m.active.value.(receiver := receiver);
      if result.Ok? {
        TriggerMute(MovedOn(m, active, Deliver(result.value)));
      } else {
        UndecryptedMute(m.(active := Some(active)), f, result.error);
      }
    }
  }

  lemma TimeoutMute(m: Machine, id: nat)
    requires m.phase.Open?
    ensures Mute(m, OnTimeout(m, id))
  {
    hide Terminate, FailRekey, BeginRekey, Removed, KindOf;
    var rest := m.(deadlines := Removed(m.deadlines, id));
    TerminateMute(rest, Expired, Some(AuthenticationFailure));
    FailRekeyMute(rest, TransportTimeout);
    BeginRekeyMute(rest.(blocked := false, late := 0));
  }

  lemma CloseMute(m: Machine, f: Frame)
    requires m.phase.Open?
    ensures Mute(m, OnCloseFrame(m, f))
  {
    hide Terminate, Cancel;
    TerminateMute(m, ProtocolViolation, Some(ProtocolError));
    if DecodeClose(f).Ok? {
      TerminateMute(m, PeerUnauthenticated(DecodeClose(f).value.reason), None);
    }
  }

  /** An established engine asks nothing, whatever arrives. */
  lemma OpenMute(m: Machine, input: Input)
    requires Valid(m) && m.phase.Open?
    ensures var r := Handle(m, input);
            Questions(r.out) == 0 && NoneEstablished(Events(r.out)) && Mute(m.(out := []), r)
  {
    hide Terminate, OnRekeyFrame, OnSend, OnData, OnCloseFrame, BeginRekey, OnTimeout, Valid;
    var cleared := m.(out := []);
    assert Valid(cleared) by {
      ClearedValid(m);
    }
    match input {
      case Start =>
      case FrameReceived(f) =>
        TerminateMute(cleared, ProtocolViolation, Some(ProtocolError));
        RekeyFrameMute(cleared, f);
        DataMute(cleared, f);
        CloseMute(cleared, f);
      case SasDecision(approved) =>
      case LocalSend(content) => SendMute(cleared, content);
      case LocalClose(reason) => TerminateMute(cleared, Local, Some(reason));
      case RequestRekey => BeginRekeyMute(cleared);
      case Timeout(id) => TimeoutMute(cleared, id);
      case TransportClosed => TerminateMute(cleared, TransportLost, None);
      case Malformed(respond) => TerminateMute(cleared, ProtocolViolation, if respond then Some(ProtocolError)
          else None);
    }
  }

  lemma ClearedValid(m: Machine)
    requires Valid(m)
    ensures Valid(m.(out := []))
  {
  }

  // ------------------------------------------------------------------ whole traces

  lemma StartGate(m: Machine)
    requires Valid(m) && m.phase.Idle? && m.out == []
    ensures var r := StartMachine(m);
            r.role == m.role && Gate(r, Seen(NOTHING_SEEN, r))
  {
    hide Arm, RearmFrameDeadline, StartInitiatorRun, InitiatorRun, FailInitial, NoteAll, Note, AtStep, Push, Tidy,
      TableOf;
    NothingYet(NOTHING_SEEN, m);
    var budgeted := Arm(m.(phase := Handshaking), HandshakeTotal, HANDSHAKE_TOTAL_TIMEOUT_SECS);
    if m.role.Initiator? {
      var run := InitiatorRun(budgeted, Initial, None);
      InitiatorStarts(budgeted, Initial, None);
      StartRun(budgeted);
      SeenPush(NOTHING_SEEN, Drawn(budgeted), Send(CommitFrame(run.localHello)));
      SeenSame(NOTHING_SEEN, budgeted, Drawn(budgeted));
      FrameAdvances(m.role, CommitFrame(run.localHello), []);
      PushOnlyAdds(Drawn(budgeted), Send(CommitFrame(run.localHello)));
    }
  }

  lemma PushOnlyAdds(m: Machine, e: Effect)
    ensures Push(m, e) == m.(out := Push(m, e).out)
  {
  }

  lemma StartRun(m: Machine)
    ensures var run := InitiatorRun(m, Initial, None);
            run.step.Hello? && run.localHello.purpose.Initial? && AskedIn(run) == []
  {
  }

  /** One input keeps the gate. */
  lemma HandleGate(h: History, m: Machine, input: Input)
    requires Valid(m) && Gate(m, h)
    ensures var r := Handle(m, input);
            r.role == m.role && Gate(r, Seen(NoteInput(h, input), r))
  {
    hide Terminate, OnSas, OnFrameHandshaking, OnData, OnRekeyFrame, OnCloseFrame, OnSend, BeginRekey, OnTimeout,
      StartMachine, Seen, Gate;
    var cleared := m.(out := []);
    var h' := NoteInput(h, input);
    NothingYet(h', cleared);
    ClearedValid(m);
    ClearedGate(h, m);
    if m.phase.Open? {
      OpenGate(h, m, input);
    } else if m.phase.Ended? {
      EndedGate(h, cleared, input);
    } else {
      EarlyGate(h, cleared, input);
    }
  }

  lemma ClearedGate(h: History, m: Machine)
    requires Gate(m, h)
    ensures Gate(m.(out := []), h)
  {
  }

  lemma EndedGate(h: History, m: Machine, input: Input)
    requires m.phase.Ended? && Gate(m, h)
    ensures Gate(m, NoteInput(h, input))
  {
  }

  lemma OpenGate(h: History, m: Machine, input: Input)
    requires Valid(m) && m.phase.Open? && Gate(m, h)
    ensures var r := Handle(m, input);
            r.role == m.role && Gate(r, Seen(NoteInput(h, input), r))
  {
    hide Handle, Valid, Failed, AtEnd;
    OpenMute(m, input);
    var r := Handle(m, input);
    EndDecided(m.role, h.asked);
    OnlyQuestionsCount(h, r.out);
    AtStepGated(m.role, Hello, h.asked);
    RekeyIsIsolated(m, input);
    if r.phase.Open? {
      SameRoot(m, r, h.asked);
    }
  }

  lemma EndDecided(role: Role, asked: seq<Question>)
    ensures var h := AtEnd(role, asked).(established := true);
            h.approved && h.established
  {
  }

  /** A rekey leads to no other question. */
  lemma SameRoot(m: Machine, r: Machine, asked: seq<Question>)
    requires m.active.Some? && AskedAbout(m.active.value, asked) && r.phase.Open? && Isolated(m, r)
    ensures r.active.Some? && AskedAbout(r.active.value, asked)
  {
  }

  /** Before Established. */
  lemma EarlyGate(h: History, m: Machine, input: Input)
    requires Valid(m) && (m.phase.Idle? || m.phase.Handshaking?) && Gate(m, h) && m.out == []
    ensures var r := Handle(m, input);
            r.role == m.role && Gate(r, Seen(NoteInput(h, input), r))
  {
    hide Terminate, OnSas, OnFrameHandshaking, OnTimeout, StartMachine, Seen, Gate, Gated, NoteAll, Note, AtStep;
    assert m == m.(out := []);
    NothingYet(h, m);
    GateGates(m, h);
    match input {
      case Start =>
        if m.phase.Idle? {
          IdleNothing(m, h);
          StartGate(m);
        } else {
          NotIdleStart(m);
        }
      case FrameReceived(f) =>
        if m.phase.Handshaking? {
          HandshakingFrameGate(h, m, f);
        } else {
          EndGate(h, m, ProtocolViolation, Some(ProtocolError));
        }
      case SasDecision(approved) => OnSasGate(h, m, approved);
      case LocalSend(content) => SendRefused(h, m, content);
      case LocalClose(reason) => EndGate(h, m, Local, Some(reason));
      case RequestRekey =>
      case Timeout(id) => TimeoutGate(h, m, id);
      case TransportClosed => EndGate(h, m, TransportLost, None);
      case Malformed(respond) => EndGate(h, m, ProtocolViolation, if respond then Some(ProtocolError) else None);
    }
  }

  lemma IdleNothing(m: Machine, h: History)
    requires m.phase.Idle? && Gate(m, h)
    ensures h == NOTHING_SEEN
  {
  }

  lemma NotIdleStart(m: Machine)
    requires !m.phase.Idle?
    ensures StartMachine(m) == m
  {
  }

  lemma EndGate(h: History, m: Machine, cause: CloseCause, notifyPeer: Option<CloseReason>)
    requires Gated(m.role, Seen(h, m))
    ensures var r := Terminate(m, cause, notifyPeer);
            r.role == m.role && Gate(r, Seen(h, r))
  {
    hide Terminate, Seen;
    TerminateSeen(h, m, cause, notifyPeer);
  }

  lemma SendRefused(h: History, m: Machine, content: seq<byte>)
    requires (m.phase.Idle? || m.phase.Handshaking?) && Gate(m, h) && m.out == []
    ensures var r := OnSend(m, content);
            r.role == m.role && Gate(r, Seen(h, r))
  {
    hide AtStep, NoteAll, Seen, Gated, MaybeTriggerRekey, SealedFrame, Sends, Delivers, Events, Talk, Questions;
    NothingYet(h, m);
    SeenPush(h, m, Notify(SendRejected(TooLarge)));
    SeenPush(h, m, Notify(SendRejected(NotActive)));
  }

  lemma TimeoutGate(h: History, m: Machine, id: nat)
    requires Valid(m) && (m.phase.Idle? || m.phase.Handshaking?) && Gate(m, h) && m.out == []
    ensures var r := OnTimeout(m, id);
            r.role == m.role && Gate(r, Seen(h, r))
  {
    hide Terminate, Removed, KindOf, Seen, AtStep, Gated, RunValid, Tidy, TableOf;
    NothingYet(h, m);
    GateGates(m, h);
    if KindOf(m.deadlines, id).Some? {
      RemovedKeeps(m, id);
      var rest := m.(deadlines := Removed(m.deadlines, id));
      SeenSame(h, m, rest);
      EndGate(h, rest, Expired, Some(ResourceLimit));
      EndGate(h, rest, Expired, Some(AuthenticationFailure));
    }
  }

  /**
   * Over every run of an engine: an initial AUTH, a SESSION_CONFIRM or Established comes only after the
   * question and a later approval, with no refusal before it; Established names the identity that the question
   * named; the question is asked at most once; and the frames sent before Established are a prefix of the
   * role's sequence, CLOSE apart.
   */
  lemma ApprovalComesFirst(states: seq<Machine>, inputs: seq<Input>, n: nat)
    requires EngineRun(states, inputs) && n <= |inputs|
    ensures Gated(states[0].role, HistoryOf(states, inputs, n))
  {
    hide Gated, Gate;
    HistoryFits(states, inputs, n);
    GateGates(states[n], HistoryOf(states, inputs, n));
  }

  /**
   * In every run an established engine has asked exactly one question and it was approved; the peer is the
   * identity that was asked about, and the active session, after any number of rekeys, comes down from the
   * transcript whose hash was asked about. Until then the question is about the transcript of the run.
   */
  lemma SessionWasApproved(states: seq<Machine>, inputs: seq<Input>, n: nat)
    requires EngineRun(states, inputs) && n <= |inputs|
    ensures var m, h := states[n], HistoryOf(states, inputs, n);
            (m.phase.Open? ==> h.approved && m.active.Some? && AskedAbout(m.active.value, h.asked))
            && (m.phase.Handshaking? ==> h.asked == if m.run.Some? then AskedIn(m.run.value) else [])
  {
    hide NoteAll, NoteInput, Valid, Handle;
    HistoryFits(states, inputs, n);
  }

  /** Whoever was asked and has not decided is waited for, unless the connection has ended. */
  lemma UndecidedIsAwaited(states: seq<Machine>, inputs: seq<Input>, n: nat)
    requires EngineRun(states, inputs) && n <= |inputs|
    ensures var h := HistoryOf(states, inputs, n);
            h.asked != [] && !h.approved && !states[n].phase.Ended? ==> AwaitsUser(states[n]) && !h.refused
  {
    hide NoteAll, NoteInput, Handle;
    HistoryFits(states, inputs, n);
    ReachableValid(states, inputs, n);
  }

  /**
   * A refusal is final: the engine has ended, whatever is decided or arrives later changes and emits nothing,
   * and it never counts as approved or established; all it ever sent, CLOSE apart, is its COMMIT and HELLO.
   */
  lemma {:induction false} RefusalIsFinal(states: seq<Machine>, inputs: seq<Input>, n: nat, k: nat)
    requires EngineRun(states, inputs) && n <= k <= |inputs| && HistoryOf(states, inputs, n).refused
    ensures var h := HistoryOf(states, inputs, k);
            states[k].phase.Ended? && h.refused && !h.approved && !h.established && |h.sent| <= 2
            && (forall kind :: kind in h.sent ==> kind.CommitKind? || kind.HelloKind?)
            && (k > n ==> states[k].out == [])
  {
    hide NoteAll, NoteInput, Valid, Gated, Gate, Handle;
    if k == n {
      HistoryFits(states, inputs, k);
      RefusedEnds(states[k], HistoryOf(states, inputs, k));
      ApprovalComesFirst(states, inputs, k);
      RefusedSent(states[0].role, HistoryOf(states, inputs, k));
    } else {
      RefusalIsFinal(states, inputs, n, k - 1);
      ReachableValid(states, inputs, k - 1);
      HandleKeeps(states[k - 1], inputs[k - 1]);
      NothingNoted(HistoryOf(states, inputs, k - 1), inputs[k - 1]);
    }
  }

  lemma RefusedEnds(m: Machine, h: History)
    requires Gate(m, h) && h.refused
    ensures m.phase.Ended?
  {
  }

  lemma RefusedSent(role: Role, h: History)
    requires Gated(role, h) && h.refused
    ensures !h.approved && !h.established && |h.sent| <= 2
    ensures forall kind :: kind in h.sent ==> kind.CommitKind? || kind.HelloKind?
  {
    assert forall i :: 0 <= i < |h.sent| ==> h.sent[i] == Sequence(role)[i];
  }

  lemma NothingNoted(h: History, input: Input)
    requires h.refused
    ensures NoteAll(NoteInput(h, input), Talk([])) == h
  {
  }

  lemma {:induction false} HistoryFits(states: seq<Machine>, inputs: seq<Input>, n: nat)
    requires EngineRun(states, inputs) && n <= |inputs|
    ensures Gate(states[n], HistoryOf(states, inputs, n)) && states[n].role == states[0].role
  {
    hide Handle, Valid, Gate, NoteAll, NoteInput;
    if n == 0 {
      NewGate(states[0]);
    } else {
      HistoryFits(states, inputs, n - 1);
      ReachableValid(states, inputs, n - 1);
      HandleGate(HistoryOf(states, inputs, n - 1), states[n - 1], inputs[n - 1]);
    }
  }

  lemma NewGate(m: Machine)
    requires m == NewMachine(m.role, m.identity, m.source, m.limit)
    ensures Gate(m, NOTHING_SEEN)
  {
  }
}
