/** How each step of a handshake is decided, and how a handshake ends. */
module HandshakeResponses {
  import opened Protocol
  import opened Symbolic
  import opened Data
  import opened Machine
  import opened EngineInvariants
  import opened HonestSteps
  import opened LocalSteps
  import opened RekeyIsolation
  import opened Authenticity
  import opened Responses

  // ------------------------------------------------------------------ starting

  /** A new engine starts once: the dialing side sends its COMMIT, the other waits. */
  lemma StartAnswers(m: Machine)
    requires Valid(m) && !m.phase.Ended?
    ensures var r := Handle(m, Start);
            if !m.phase.Idle? then r == m.(out := [])
            else
              r.phase.Handshaking? && SameParty(m, r) && r.active.None? && Delivers(r.out) == [] && Events(r.out) == []
              && Questions(r.out) == 0
              && if m.role.Initiator? then
                   r.run == Some(OfferRun(Initial, None, NextHalf(m)))
                   && Sends(r.out) == [Commit(Initial, None, NextHalf(m))]
                 else r.run.None? && Sends(r.out) == []
  {
    hide Arm, RearmFrameDeadline, StartInitiatorRun, FailInitial, Tidy, TableOf, Sends, Delivers, Events, Questions,
      Talk;
    NothingSaid();
    var budgeted := Arm(m.(phase := Handshaking, out := []), HandshakeTotal, HANDSHAKE_TOTAL_TIMEOUT_SECS);
    if m.phase.Idle? && m.role.Initiator? {
      InitiatorStarts(budgeted, Initial, None);
      assert [] + [Commit(Initial, None, NextHalf(m))] == [Commit(Initial, None, NextHalf(m))];
    }
  }

  // ------------------------------------------------------------------ HELLO

  /** A HELLO of the other role, on the terms of the run, by another party with another ephemeral. */
  predicate Belongs(run: Run, remote: HelloPayload) {
    remote.role == Opposite(run.role) && remote.cipherSuite == 1 && remote.purpose == run.purpose
    && remote.previous == run.previous && remote.identity != run.localHello.identity
    && remote.ephemeral != run.localHello.ephemeral
  }

  /** It comes from whom a rekey is with, opens the commitment if there is one, and its ephemeral agrees a secret. */
  predicate Acceptable(m: Machine, run: Run, remote: HelloPayload) {
    Belongs(run, remote)
    && (run.purpose.Rekey? ==> m.active.Some? && remote.identity == m.active.value.peer)
    && (run.role.Responder? ==> run.commit.Some? && run.commit.value.commitment == CommitmentTo(remote))
    && remote.ephemeral.PublicOf?
  }

  /** The run with everything the two HELLOs determine. */
  function Joined(run: Run, remote: HelloPayload): Run
    requires remote.ephemeral.PublicOf?
  {
    var own := run.localHello;
    var i, r := if run.role.Initiator? then own else remote, if run.role.Initiator? then remote else own;
    var t := Transcript(run.purpose, 1, i.identity, r.identity, i.ephemeral, r.ephemeral, i.nonce, r.nonce,
                        run.previous);
    run.(localHelloFrame := None, remoteIdentity := Some(remote.identity), transcript := Some(t),
         hash := Some(HashOf(t)), shared := Some(Agreed({run.ephemeral, remote.ephemeral.secret})),
         step := if run.purpose.Initial? then Sas else if run.role.Initiator? then AuthResp else AuthInit)
  }

  /** What is sent once both HELLOs are known: the initiator reveals its own, and in a rekey signs at once. */
  function Reveals(run: Run, joined: Run): seq<Frame>
    requires joined.transcript.Some?
  {
    if run.role.Responder? then []
    else [HelloFrame(run.localHello)] + if run.purpose.Rekey? then [SignedFirst(joined.transcript.value)] else []
  }

  /** The AUTH that opens the exchange, with the initiator's signature. */
  function SignedFirst(t: Transcript): Frame {
    Frame(MessageTypeForPurpose(t.purpose),
          AuthBody(AuthPayload(t, 0, SignedBy(t.initiatorIdentity, HashOf(t), true), None)))
  }

  lemma JoinedBy(m: Machine, run: Run, remote: HelloPayload)
    requires Running(m, run) && (run.step.Hello? || run.step.Reveal?) && Belongs(run, remote)
    ensures var hellos := if run.role.Initiator? then (run.localHello, remote) else (remote, run.localHello);
            var transcript := TranscriptFromHellos(hellos.0, hellos.1);
            var shared := DiffieHellman(run.ephemeral, remote.ephemeral);
            transcript.Ok?
            && (remote.ephemeral.PublicOf? ==>
                  shared.Ok?
                  && Joined(run, remote)
                     == Informed(run.(localHelloFrame := None), remote.identity, transcript.value, shared.value)
                        .(step := Joined(run, remote).step))
  {
    hide Tidy, TableOf;
  }

  lemma BelongsIsChecked(m: Machine, run: Run, remote: HelloPayload)
    requires Running(m, run)
    ensures var checked := CheckRemoteHello(m, run, remote, Opposite(run.role));
            if !Belongs(run, remote) then checked == Err(InvalidHandshake)
            else if run.purpose.Rekey? && m.active.value.peer != remote.identity then
              m.active.Some? && checked == Err(IdentityMismatch)
            else checked == Ok(())
  {
    hide Tidy, TableOf;
  }

  lemma AfterHellosAnswers(m: Machine, run: Run, remote: HelloPayload)
    requires Running(m, run) && (run.step.Hello? || run.step.Reveal?) && Belongs(run, remote)
    ensures var s := AfterHellos(m, run.(localHelloFrame := None), remote);
            if !remote.ephemeral.PublicOf? then
              s.result == Err(AllZeroSharedSecret) && s.machine == m
            else
              var joined := Joined(run, remote);
              s.result == Ok(None) && s.run == joined
              && Sends(s.machine.out) == Sends(m.out)
                  + (if run.role.Initiator? && run.purpose.Rekey? then [SignedFirst(joined.transcript.value)] else [])
              && (run.purpose.Initial? ==>
                    Talk(s.machine.out) == Talk(m.out) + [RequestSas(joined.hash.value, remote.identity)])
  {
    hide Arm, Cancel, RearmFrameDeadline, StepAuthInit, Tidy, TableOf, TableFits, Sends, Talk, Delivers, Events,
      Questions, Replay, Timely;
    JoinedBy(m, run, remote);
    assert Sends(m.out) + [] == Sends(m.out);
  }

  /**
   * A HELLO is accepted exactly if it is acceptable; then the run holds what both HELLOs determine, and in a
   * first handshake the user is asked about that very hash and identity. A HELLO of someone else in a rekey is
   * refused as such, and so is a low-order ephemeral; a refused HELLO changes nothing, except that the initiator
   * has then already revealed its own if only the ephemeral was at fault.
   */
  lemma HellosDecide(m: Machine, run: Run, f: Frame)
    requires Running(m, run) && (run.step.Hello? || run.step.Reveal?)
    ensures var s := StepRun(m, run, f);
            if DecodeHello(f).Ok? && Acceptable(m, run, DecodeHello(f).value) then
              var remote := DecodeHello(f).value;
              var joined := Joined(run, remote);
              s.result == Ok(None) && s.run == joined
              && Sends(s.machine.out) == Sends(m.out) + Reveals(run, joined)
              && (run.purpose.Initial? ==> RequestSas(joined.hash.value, remote.identity) in Talk(s.machine.out))
            else
              s.result.Err?
              && (DecodeHello(f).Ok? ==>
                    var remote := DecodeHello(f).value;
                    if Belongs(run, remote) && run.purpose.Rekey? && m.active.value.peer != remote.identity then
                      s.result == Err(IdentityMismatch) && s.machine == m
                    else
                      s.result in {Err(InvalidHandshake), Err(AllZeroSharedSecret)}
                      && (s.machine == m || Sends(s.machine.out) == Sends(m.out) + [HelloFrame(run.localHello)]))
              && (DecodeHello(f).Err? ==> s.result == Err(DecodeHello(f).error) && s.machine == m)
  {
    hide AfterHellos, CheckRemoteHello, DecodeHello, Tidy, TableOf, Sends, Talk, Delivers, Events, Questions, Replay,
      Timely;
    if DecodeHello(f).Ok? {
      var remote := DecodeHello(f).value;
      BelongsIsChecked(m, run, remote);
      if Belongs(run, remote) {
        if run.step.Hello? {
          var told := Push(m, Send(run.localHelloFrame.value));
          AfterHellosAnswers(told, run, remote);
          TwoFrames(Sends(m.out), HelloFrame(run.localHello), remote.ephemeral.PublicOf?, run, remote);
        } else {
          assert run.(localHelloFrame := None) == run;
          AfterHellosAnswers(m, run, remote);
        }
      }
    }
  }

  lemma TwoFrames(fs: seq<Frame>, f: Frame, accepted: bool, run: Run, remote: HelloPayload)
    ensures (fs + [f]) + [] == fs + [f] && fs + [] == fs
    ensures accepted && remote.ephemeral.PublicOf? ==>
              var g := SignedFirst(Joined(run, remote).transcript.value);
              (fs + [f]) + [g] == fs + ([f] + [g])
    ensures [f] + [] == [f]
  {
  }

  // ------------------------------------------------------------------ how a first handshake fails

  /** The cause that is reported for an error in the first handshake, and the reason the peer is told. */
  function EndFor(error: Error): (CloseCause, CloseReason) {
    match error
    case SasRejected => (SasDeclined, AuthenticationFailure)
    case SignatureInvalid => (Unauthentic, AuthenticationFailure)
    case ConfirmationInvalid => (Unauthentic, AuthenticationFailure)
    case IdentityMismatch => (Unauthentic, IdentityChanged)
    case _ => (ProtocolViolation, ProtocolError)
  }

  lemma InitialFails(m: Machine, error: Error)
    requires Delivers(m.out) == [] && Events(m.out) == [] && Questions(m.out) == 0
    ensures EndsAfter(m, FailInitial(m, error), Sends(m.out), EndFor(error).0, Some(EndFor(error).1))
  {
    hide Terminate, EndsAfter, Sends, Delivers, Events, Questions;
    Terminated(m, SasDeclined, Some(AuthenticationFailure));
    Terminated(m, Unauthentic, Some(AuthenticationFailure));
    Terminated(m, Unauthentic, Some(IdentityChanged));
    Terminated(m, ProtocolViolation, Some(ProtocolError));
  }

  /** The engine without its run, as a step finds it. */
  function Taken(m: Machine): Machine {
    m.(run := None, out := [])
  }

  /** A frame for the run of a first handshake. */
  predicate ForFirstRun(m: Machine, f: Frame) {
    Valid(m) && m.phase.Handshaking? && m.run.Some? && !f.messageType.Close?
  }

  lemma TakenRuns(m: Machine)
    requires Valid(m) && m.run.Some? && !m.phase.Ended?
    ensures Running(Taken(m), m.run.value) && m.run.value.purpose.Initial? == m.phase.Handshaking?
    ensures m.phase.Handshaking? ==> m.active.None?
  {
    hide Tidy, TableOf, RunValid;
    assert Taken(m).(run := m.run) == m.(out := []);
  }

  /** An error of a step ends a first handshake for its cause, after whatever the step had sent. */
  lemma FirstRunFails(m: Machine, f: Frame)
    requires ForFirstRun(m, f)
    ensures var s := StepRun(Taken(m), m.run.value, f);
            s.result.Err? && Delivers(s.machine.out) == [] && Events(s.machine.out) == []
            && Questions(s.machine.out) == 0 ==>
              EndsAfter(m, Handle(m, FrameReceived(f)), Sends(s.machine.out),
                        EndFor(s.result.error).0, Some(EndFor(s.result.error).1))
  {
    hide StepRun, FailInitial, CompleteInitial, EndsAfter, EndFor, Valid, Sends, Delivers, Events, Questions;
    var s := StepRun(Taken(m), m.run.value, f);
    TakenRuns(m);
    StepRunKeeps(Taken(m), m.run.value, f);
    if s.result.Err? && Delivers(s.machine.out) == [] && Events(s.machine.out) == [] && Questions(s.machine.out) == 0 {
      InitialFails(s.machine, s.result.error);
      SameActive(m, s.machine);
    }
  }

  lemma SameActive(m: Machine, n: Machine)
    requires n.active == m.active
    ensures forall r, sends, cause, reason ::
              EndsAfter(n, r, sends, cause, reason) <==> EndsAfter(m, r, sends, cause, reason)
  {
  }

  /** An AUTH over the right transcript with a false signature is unauthentic; any other refused one a violation. */
  lemma FalseAuthEnds(m: Machine, f: Frame)
    requires ForFirstRun(m, f) && !f.body.Unreadable? && (m.run.value.step.AuthInit? || m.run.value.step.AuthResp?)
    requires !Authentic(m.run.value, f)
    ensures var r, run := Handle(m, FrameReceived(f)), m.run.value;
            if OverTranscript(run, f, if run.role.Initiator? then 1 else 0)
            then EndsWith(m, r, Unauthentic, Some(AuthenticationFailure))
            else EndsWith(m, r, ProtocolViolation, Some(ProtocolError))
  {
    hide StepRun, Handle, EndsAfter, Valid, Running, Authentic, OverTranscript, Sends, Delivers, Events, Questions;
    NothingSaid();
    TakenRuns(m);
    SignaturesDecide(Taken(m), m.run.value, f);
    FirstRunFails(m, f);
  }

  /** A SESSION_CONFIRM that does not confirm the run's keys is unauthentic, as is any other frame in its place. */
  lemma FalseConfirmationEnds(m: Machine, f: Frame)
    requires ForFirstRun(m, f) && !f.body.Unreadable?
    requires m.run.value.step.ConfirmInit? || m.run.value.step.ConfirmResp?
    requires m.run.value.keys.Some? && !CarriesMac(f, m.run.value.keys.value, Opposite(m.run.value.role))
    ensures EndsWith(m, Handle(m, FrameReceived(f)), Unauthentic, Some(AuthenticationFailure))
  {
    hide StepRun, Handle, EndsAfter, Valid, Running, CarriesMac, Sends, Delivers, Events, Questions;
    NothingSaid();
    TakenRuns(m);
    MacsDecide(Taken(m), m.run.value, f);
    FirstRunFails(m, f);
  }

  /** A HELLO that is not acceptable is a violation, and so is any other frame in its place. */
  lemma FalseHelloEnds(m: Machine, f: Frame)
    requires ForFirstRun(m, f) && !f.body.Unreadable? && (m.run.value.step.Hello? || m.run.value.step.Reveal?)
    requires DecodeHello(f).Ok? ==> !Acceptable(m, m.run.value, DecodeHello(f).value)
    ensures var r := Handle(m, FrameReceived(f));
            EndsWith(m, r, ProtocolViolation, Some(ProtocolError))
            || EndsAfter(m, r, [HelloFrame(m.run.value.localHello)], ProtocolViolation, Some(ProtocolError))
  {
    hide StepRun, Handle, EndsAfter, Valid, Running, Belongs, Acceptable, DecodeHello, Sends, Delivers, Events,
      Questions;
    NothingSaid();
    TakenRuns(m);
    ReadableHello(f);
    SameAcceptable(m, m.run.value);
    HellosDecide(Taken(m), m.run.value, f);
    RefusalSays(Taken(m), m.run.value, f);
    FirstRunFails(m, f);
    assert [] + [HelloFrame(m.run.value.localHello)] == [HelloFrame(m.run.value.localHello)];
  }

  lemma ReadableHello(f: Frame)
    requires !f.body.Unreadable?
    ensures DecodeHello(f).Err? ==> DecodeHello(f).error == InvalidHandshake
  {
  }

  lemma SameAcceptable(m: Machine, run: Run)
    ensures forall remote :: Acceptable(Taken(m), run, remote) <==> Acceptable(m, run, remote)
  {
    hide Belongs;
  }

  /** A refused step reports and delivers nothing. */
  lemma RefusalSays(m: Machine, run: Run, f: Frame)
    requires run.step.Hello? || run.step.Reveal?
    ensures var s := StepRun(m, run, f);
            s.result.Err? && run.purpose.Initial? ==>
              Delivers(s.machine.out) == Delivers(m.out) && Events(s.machine.out) == Events(m.out)
              && Questions(s.machine.out) == Questions(m.out)
  {
    hide DecodeHello, CheckRemoteHello, Sends, Delivers, Events, Questions, Talk, Replay, Timely, Cancel, Arm;
  }

  /** While the user decides, all but the first HANDSHAKE frame to a responder is a violation. */
  lemma ImpatientFrameEnds(m: Machine, f: Frame)
    requires ForFirstRun(m, f) && m.run.value.step.Sas?
    ensures var r, run := Handle(m, FrameReceived(f)), m.run.value;
            if run.role.Responder? && run.early.None? && f.messageType.Handshake? then
              r == m.(run := Some(run.(early := Some(f))), out := [])
            else EndsWith(m, r, ProtocolViolation, Some(ProtocolError))
  {
    hide EndsAfter, FailInitial, CompleteInitial, Valid, Sends, Delivers, Events, Questions;
    NothingSaid();
    TakenRuns(m);
    FirstRunFails(m, f);
  }

  /** A waiting responder accepts a first COMMIT, and any other readable frame is a violation. */
  lemma FirstCommitOnly(m: Machine, f: Frame)
    requires Valid(m) && m.phase.Handshaking? && m.run.None? && !f.messageType.Close? && !f.body.Unreadable?
    ensures var r := Handle(m, FrameReceived(f));
            if f.messageType.Handshake? && f.body.CommitBody? && f.body.commit.cipherSuite == 1
               && f.body.commit.purpose.Initial? && f.body.commit.previous.None? then
              var run := ResponderRun(m, f.body.commit);
              r.phase.Handshaking? && r.run == Some(run) && Sends(r.out) == [HelloFrame(run.localHello)]
              && Delivers(r.out) == [] && Events(r.out) == [] && Questions(r.out) == 0
            else EndsWith(m, r, ProtocolViolation, Some(ProtocolError))
  {
    hide StartResponderRun, ResponderRun, RearmFrameDeadline, FailInitial, EndsAfter, DecodeCommit, Valid, Sends,
      Delivers, Events, Questions;
    NothingSaid();
    Cleared(m);
    FirstCommitRead(f);
    var cleared := m.(out := []);
    InitialFails(cleared, InvalidHandshake);
    if DecodeCommit(f).Ok? {
      var run := ResponderRun(cleared, DecodeCommit(f).value);
      assert [] + [HelloFrame(run.localHello)] == [HelloFrame(run.localHello)];
      if DecodeCommit(f).value.purpose.Initial? && DecodeCommit(f).value.previous.None? {
        ResponderStarts(cleared, DecodeCommit(f).value, true);
        SameResponder(m, DecodeCommit(f).value);
      }
    }
  }

  lemma FirstCommitRead(f: Frame)
    requires !f.body.Unreadable?
    ensures DecodeCommit(f).Err? ==> DecodeCommit(f).error == InvalidHandshake
    ensures DecodeCommit(f).Ok? ==>
              f.body == CommitBody(DecodeCommit(f).value) && f.body.commit.cipherSuite == 1
              && (f.body.commit.purpose.Initial? <==> f.messageType.Handshake?)
    ensures (f.messageType.Handshake? && f.body.CommitBody? && f.body.commit.cipherSuite == 1
             && f.body.commit.purpose.Initial? && f.body.commit.previous.None?) ==>
              DecodeCommit(f).Ok?
  {
  }

  lemma SameResponder(m: Machine, commit: CommitPayload)
    ensures ResponderRun(m, commit) == ResponderRun(m.(out := []), commit)
  {
  }

  // ------------------------------------------------------------------ the user's approval

  /**
   * Approved, the initiator signs the transcript that its user was asked about; the responder waits for the
   * AUTH, or takes the one that waited: if it is authentic it is countersigned at once, and otherwise the
   * connection ends.
   */
  lemma ApprovalAnswers(m: Machine)
    requires Valid(m) && AwaitsUser(m)
    ensures m.run.value.transcript.Some? && m.run.value.shared.Some?
    ensures var r, run := Handle(m, SasDecision(true)), m.run.value;
            var next := Approved(run);
            match run.early
            case None =>
              r.run == Some(next) && r.phase.Handshaking? && Delivers(r.out) == [] && Events(r.out) == []
              && Sends(r.out) == if run.role.Initiator? then [SignedFirst(run.transcript.value)] else []
            case Some(f) =>
              if Authentic(next, f) then
                r.run == Some(Confirming(next)) && r.phase.Handshaking? && Sends(r.out) == [ReplyTo(next, f)]
              else if OverTranscript(next, f, 0) then EndsWith(m, r, Unauthentic, Some(AuthenticationFailure))
              else f.body.Unreadable? || EndsWith(m, r, ProtocolViolation, Some(ProtocolError))
  {
    hide AfterApproval, Cancel, CompleteInitial, FailInitial, EndsAfter, Approvable, Tidy, TableOf, Authentic,
      OverTranscript, Sends, Delivers, Events, Questions, Talk, Replay, Timely;
    NothingSaid();
    var c := Cancel(m.(out := []), SasWait).(run := None);
    ApprovedRun(m);
    ApprovalSteps(m, c);
    var s := AfterApproval(c, m.run.value);
    if s.result.Err? && Unsaid(s.machine.out) {
      InitialFails(s.machine, s.result.error);
      SameActive(m, s.machine);
    }
  }

  lemma ApprovedRun(m: Machine)
    requires Valid(m) && AwaitsUser(m)
    ensures m.run.value.transcript.Some? && m.run.value.shared.Some?
        && m.run.value.hash == Some(HashOf(m.run.value.transcript.value))
    ensures Approvable(Cancel(m.(out := []), SasWait).(run := None), m.run.value)
    ensures m.run.value.role.Initiator? ==>
              m.run.value.transcript.value.initiatorIdentity == m.identity && m.run.value.early.None?
    ensures m.run.value.purpose.Initial? && m.run.value.transcript.value.purpose.Initial? && m.active.None?
        && m.run.value.transcript.value.previous.None? && m.run.value.transcript.value.cipherSuite == 1
  {
    hide Cancel, Tidy, TableOf;
  }

  lemma ApprovalSteps(m: Machine, c: Machine)
    requires Valid(m) && AwaitsUser(m) && c == Cancel(m.(out := []), SasWait).(run := None)
    ensures m.run.value.transcript.Some? && m.run.value.shared.Some?
    ensures var s, run := AfterApproval(c, m.run.value), m.run.value;
            var next := Approved(run);
            s.machine.phase == m.phase && s.machine.active == m.active
            && match run.early
               case None =>
                 s.result == Ok(None) && s.run == next && Delivers(s.machine.out) == [] && Events(s.machine.out) == []
                 && Sends(s.machine.out) == if run.role.Initiator? then [SignedFirst(run.transcript.value)] else []
               case Some(f) =>
                 if Authentic(next, f) then
                   s.result == Ok(None) && s.run == Confirming(next) && Sends(s.machine.out) == [ReplyTo(next, f)]
                 else
                   s.result.Err? && Unsaid(s.machine.out)
                   && if OverTranscript(next, f, 0) then s.result == Err(SignatureInvalid)
                      else f.body.Unreadable? || s.result == Err(InvalidHandshake)
  {
    hide RearmFrameDeadline, StepAuthInit, Cancel, Authentic, OverTranscript, Tidy, TableOf, RunValid, Sends,
      Delivers, Events, Questions, Talk, Replay, Timely;
    NothingSaid();
    ApprovedRun(m);
    var run := m.run.value;
    AfterApprovalKeeps(c, run);
    assert [] + [SignedFirst(run.transcript.value)] == [SignedFirst(run.transcript.value)];
    if run.early.Some? {
      var f, next := run.early.value, Approved(run);
      assert Running(c, next);
      SignaturesDecide(c, next, f);
      if Authentic(next, f) {
        assert [] + [ReplyTo(next, f)] == [ReplyTo(next, f)];
      }
    }
  }

  // ------------------------------------------------------------------ completion

  /** The counters of a session that has just begun. */
  predicate Renewed(r: Machine) {
    r.messages == 0 && r.late == 0 && r.rejections == 0 && r.run.None? && Delay(r.out, RekeyDue) == Some(24 * 60 * 60)
  }

  lemma InitialCompletes(m: Machine, c: Candidate)
    requires Delivers(m.out) == [] && Events(m.out) == [] && Questions(m.out) == 0 && m.run.None?
    ensures var r := CompleteInitial(m, c);
            r.phase.Open? && r.active == Some(NewSession(c.keys, c.role, c.peer)) && r.draining == m.draining
            && r.blocked == m.blocked && Renewed(r)
            && Sends(r.out) == Sends(m.out) && Delivers(r.out) == [] && Events(r.out) == [Established(c.peer)]
            && Questions(r.out) == 0
  {
    hide Cancel, Arm, Sends, Delivers, Events, Questions, Talk, Replay, Timely, Delay;
    var off := Cancel(Cancel(Cancel(m, HandshakeFrame), SasWait), HandshakeTotal);
    var on := off.(active := Some(NewSession(c.keys, c.role, c.peer)), phase := Phase.Open, messages := 0, late := 0,
                   rejections := 0);
    DelayArmed(on, RekeyDue, REKEY_INTERVAL_SECS);
    DelayPush(Arm(on, RekeyDue, REKEY_INTERVAL_SECS), Notify(Established(c.peer)), RekeyDue);
    assert [] + [Established(c.peer)] == [Established(c.peer)];
  }

  lemma RekeyCompletes(m: Machine, c: Candidate)
    requires Delivers(m.out) == [] && Events(m.out) == [] && Questions(m.out) == 0 && m.run.None?
    requires m.active.Some? && m.active.value.peer == c.peer && m.active.value.id != IdOf(c.keys)
    ensures var r := CompleteRekey(m, c);
            r.phase == m.phase && r.active == Some(NewSession(c.keys, c.role, c.peer)) && r.draining == m.active
            && !r.blocked && Renewed(r) && Delay(r.out, Drain) == Some(15)
            && Sends(r.out) == Sends(m.out) && Delivers(r.out) == [] && Events(r.out) == [RekeyCompleted]
            && Questions(r.out) == 0
  {
    hide Cancel, Arm, Sends, Delivers, Events, Questions, Talk, Replay, Timely, Delay;
    var n := Replaced(Disarmed(m), c);
    var drains := Arm(n, Drain, REKEY_DRAIN_TIMEOUT_SECS);
    var due := Arm(drains, RekeyDue, REKEY_INTERVAL_SECS);
    DelayArmed(n, Drain, REKEY_DRAIN_TIMEOUT_SECS);
    DelayCancel(drains, RekeyDue, Drain);
    DelayArm(drains, RekeyDue, REKEY_INTERVAL_SECS, Drain);
    DelayArmed(drains, RekeyDue, REKEY_INTERVAL_SECS);
    var reset := due.(messages := 0, blocked := false, late := 0, rejections := 0);
    DelayPush(reset, Notify(RekeyCompleted), Drain);
    DelayPush(reset, Notify(RekeyCompleted), RekeyDue);
    assert [] + [RekeyCompleted] == [RekeyCompleted];
  }

  /** A frame for the run under way that is no crossing offer. */
  predicate ForRun(m: Machine, f: Frame) {
    Valid(m) && m.run.Some?
    && ((m.phase.Handshaking? && !f.messageType.Close?)
        || (m.phase.Open? && (f.messageType.Rekey? || f.messageType.SessionConfirm?)
            && (m.run.value.step.Hello? ==> DecodeCommit(f).Err?)))
  }

  /** A step that goes on is all that its frame does. */
  lemma StepGoesOn(m: Machine, f: Frame)
    requires ForRun(m, f)
    ensures var s := StepRun(Taken(m), m.run.value, f);
            s.result == Ok(None) ==> Handle(m, FrameReceived(f)) == s.machine.(run := Some(s.run))
  {
    hide StepRun, Valid, DecodeCommit, FailInitial, FailRekey, CompleteInitial, CompleteRekey;
    TakenRuns(m);
  }

  /**
   * The peer's confirmation always completes a handshake, first or rekey: the session of the run's keys becomes
   * active, what was active drains for fifteen seconds, all counters start again and the next rekey is due in a
   * day; the responder has sent its confirmation. Nothing else completes one.
   */
  lemma ConfirmationCompletes(m: Machine, f: Frame)
    requires ForRun(m, f) && (m.run.value.step.ConfirmInit? || m.run.value.step.ConfirmResp?)
    ensures m.run.value.keys.Some? && m.run.value.remoteIdentity.Some?
    ensures var r, run := Handle(m, FrameReceived(f)), m.run.value;
            var keys, peer := run.keys.value, run.remoteIdentity.value;
            if CarriesMac(f, keys, Opposite(run.role)) then
              r.phase.Open? && r.active == Some(NewSession(keys, run.role, peer)) && r.draining == m.active
              && Renewed(r)
              && (m.active.Some? ==> !r.blocked && Delay(r.out, Drain) == Some(15))
              && Events(r.out) == [if m.active.Some? then RekeyCompleted else Established(peer)]
              && Delivers(r.out) == [] && Questions(r.out) == 0
              && Sends(r.out) == (if run.role.Initiator? then [] else
                  [Frame(SessionConfirm, ConfirmBody(ConfirmPayload(IdOf(keys), Responder,
                      MacOf(keys, keys.hash, false))))])
            else r.phase.Ended? || (r.run.None? && r.active == m.active)
  {
    hide StepRun, FailInitial, FailRekey, CompleteInitial, CompleteRekey, Valid, Running, CarriesMac, Delay,
      EndsAfter, DecodeCommit, Sends, Delivers, Events, Questions;
    NothingSaid();
    TakenRuns(m);
    var s := StepRun(Taken(m), m.run.value, f);
    MacsDecide(Taken(m), m.run.value, f);
    StepRunKeeps(Taken(m), m.run.value, f);
    ConfirmSays(Taken(m), m.run.value, f);
    CandidateIsFresh(m);
    if s.result.Err? {
      FailInitialKeeps(s.machine, s.result.error);
      if m.phase.Open? {
        RekeyFails(s.machine, s.result.error);
      }
    } else if m.phase.Handshaking? {
      InitialCompletes(s.machine, s.result.value.value);
    } else {
      RekeyCompletes(s.machine, s.result.value.value);
    }
  }

  lemma ConfirmSays(m: Machine, run: Run, f: Frame)
    requires run.step.ConfirmInit? || run.step.ConfirmResp?
    ensures var s := StepRun(m, run, f);
            Delivers(s.machine.out) == Delivers(m.out) && Events(s.machine.out) == Events(m.out)
            && Questions(s.machine.out) == Questions(m.out)
  {
    hide DecodeConfirm, VerifyConfirm, Sends, Delivers, Events, Questions, Talk, Replay, Timely;
  }

  /** The candidate of a rekey is with the same peer and has another id. */
  lemma CandidateIsFresh(m: Machine)
    requires Valid(m) && m.run.Some? && (m.run.value.step.ConfirmInit? || m.run.value.step.ConfirmResp?)
    ensures m.run.value.keys.Some? && m.run.value.remoteIdentity.Some?
    ensures m.phase.Handshaking? ==> m.active.None? && m.draining.None?
    ensures m.phase.Open? ==>
              m.active.Some? && m.active.value.peer == m.run.value.remoteIdentity.value
              && m.active.value.id != IdOf(m.run.value.keys.value)
  {
    hide Tidy, TableOf, Binds;
    var id := IdOf(m.run.value.keys.value);
    if m.phase.Open? {
      assert Epoch(id) == 1 + Epoch(m.active.value.id);
    }
  }

  // ------------------------------------------------------------------ how a rekey fails

  /**
   * A refused frame of a rekey fails it and leaves the session: as a change of peer exactly if an otherwise
   * fitting HELLO was someone else's, and as invalid otherwise.
   */
  lemma RefusedRekeyFrame(m: Machine, f: Frame)
    requires ForRun(m, f) && m.phase.Open? && !f.body.Unreadable?
    requires StepRun(Taken(m), m.run.value, f).result.Err?
    ensures var r, run, s := Handle(m, FrameReceived(f)), m.run.value, StepRun(Taken(m), m.run.value, f);
            m.active.Some?
            && var stranger := (run.step.Hello? || run.step.Reveal?) && DecodeHello(f).Ok?
                   && Belongs(run, DecodeHello(f).value) && DecodeHello(f).value.identity != m.active.value.peer;
            FailsAfter(m, r, Sends(s.machine.out), if stranger then PeerChanged else Invalid)
  {
    hide StepRun, FailRekey, CompleteRekey, Valid, Running, Belongs, Acceptable, Authentic, OverTranscript,
      CarriesMac, Delay, DecodeHello, DecodeCommit, Sends, Delivers, Events, Questions, FailsAfter;
    NothingSaid();
    TakenRuns(m);
    var run, s := m.run.value, StepRun(Taken(m), m.run.value, f);
    StepRunKeeps(Taken(m), run, f);
    RefusedSays(Taken(m), run, f);
    RekeyFails(s.machine, s.result.error);
    RekeyRunPeer(m);
    ReadableHello(f);
    SameAcceptable(m, run);
    match run.step {
      case AuthInit => SignaturesDecide(Taken(m), run, f);
      case AuthResp => SignaturesDecide(Taken(m), run, f);
      case ConfirmInit => MacsDecide(Taken(m), run, f);
      case ConfirmResp => MacsDecide(Taken(m), run, f);
      case Sas =>
      case _ => HellosDecide(Taken(m), run, f);
    }
    FailsSame(m, s.machine);
  }

  lemma RekeyRunPeer(m: Machine)
    requires Valid(m) && m.phase.Open? && m.run.Some?
    ensures m.active.Some? && m.run.value.purpose.Rekey? && !m.run.value.step.Sas?
  {
    hide Tidy, TableOf;
  }

  lemma FailsSame(m: Machine, n: Machine)
    requires OnlyTimers(Taken(m), n)
    ensures forall r, sends, failure :: FailsAfter(n, r, sends, failure) ==> FailsAfter(m, r, sends, failure)
  {
    hide Sends, Delivers, Events, Questions, Delay;
  }

  lemma RefusedSays(m: Machine, run: Run, f: Frame)
    requires run.purpose.Rekey?
    ensures var s := StepRun(m, run, f);
            s.result.Err? && Unsaid(m.out) ==>
              Delivers(s.machine.out) == [] && Events(s.machine.out) == [] && Questions(s.machine.out) == 0
  {
    hide StepRun, Sends, Delivers, Events, Questions;
    StepRunSilent(m, run, f);
    StepDeliversNothing(m, run, f);
  }

  /** No step of a run delivers content. */
  lemma StepDeliversNothing(m: Machine, run: Run, f: Frame)
    ensures Delivers(StepRun(m, run, f).machine.out) == Delivers(m.out)
  {
    hide DecodeHello, DecodeAuth, DecodeConfirm, CheckRemoteHello, VerifyAuth, VerifyConfirm, TranscriptFromHellos,
      DiffieHellman, RearmFrameDeadline, Arm, Cancel, StepAuthInit, AfterHellos, Sends, Delivers, Events, Questions,
      Talk, Replay, Timely;
    AuthInitDelivers(m, run, f);
    if DecodeHello(f).Ok? {
      var remote := DecodeHello(f).value;
      AfterHellosDelivers(m, run, remote);
      if run.localHelloFrame.Some? {
        AfterHellosDelivers(Push(m, Send(run.localHelloFrame.value)), run.(localHelloFrame := None), remote);
      }
    }
  }

  lemma AuthInitDelivers(m: Machine, run: Run, f: Frame)
    ensures Delivers(StepAuthInit(m, run, f).machine.out) == Delivers(m.out)
  {
    hide DecodeAuth, VerifyAuth, RearmFrameDeadline, Sends, Delivers, Events, Questions, Talk, Replay, Timely;
  }

  lemma AfterHellosDelivers(m: Machine, run: Run, remote: HelloPayload)
    ensures Delivers(AfterHellos(m, run, remote).machine.out) == Delivers(m.out)
  {
    hide RearmFrameDeadline, Arm, Cancel, StepAuthInit, Sends, Delivers, Events, Questions, Talk, Replay, Timely;
    var hellos := if run.role.Initiator? then (run.localHello, remote) else (remote, run.localHello);
    var transcript, shared := TranscriptFromHellos(hellos.0, hellos.1), DiffieHellman(run.ephemeral, remote.ephemeral);
    if transcript.Ok? && shared.Ok? {
      var next := Informed(run, remote.identity, transcript.value, shared.value).(step := AuthInit);
      if run.early.Some? {
        AuthInitDelivers(m, next.(early := None), run.early.value);
      }
    }
  }
}
