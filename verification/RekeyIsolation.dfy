/** A rekey touches the session only by completing. */
module RekeyIsolation {
  import opened Protocol
  import opened Symbolic
  import opened Data
  import opened Machine
  import opened EngineInvariants

  predicate Failed(es: seq<Event>) {
    es != [] && (es[|es| - 1].RekeyFailed? || Failed(es[..|es| - 1]))
  }

  /** Sessions may have moved on, and the draining one may be gone. */
  predicate SameSessions(m: Machine, r: Machine)
    requires m.active.Some?
  {
    r.active.Some? && r.active.value.id == m.active.value.id && r.active.value.peer == m.active.value.peer
    && (r.draining.Some? ==> m.draining.Some? && r.draining.value.id == m.draining.value.id)
  }

  /** A completed run that named the active session as its predecessor replaced it. */
  predicate Succeeded(m: Machine, r: Machine)
    requires m.active.Some?
  {
    m.run.Some? && m.run.value.keys.Some? && r.run.None? && r.draining == m.active
    && m.run.value.keys.value.hash.transcript.previous == Some(m.active.value.id)
    && r.active == Some(NewSession(m.run.value.keys.value, m.run.value.role, m.active.value.peer))
  }

  /** The engine is as open as before, with both sessions as they were. */
  predicate Untouched(m: Machine, r: Machine) {
    r.phase == m.phase && r.active == m.active && r.draining == m.draining
  }

  /** What one input may do to the sessions of an open engine. */
  predicate Isolated(m: Machine, r: Machine)
    requires m.active.Some?
  {
    r.phase.Ended?
    || (r.phase.Open? && (SameSessions(m, r) || Succeeded(m, r)) && (Failed(Events(r.out)) ==> Untouched(m, r)))
  }

  lemma BeginRekeyEvents(m: Machine)
    ensures var r := BeginRekey(m);
            Events(r.out) == Events(m.out) || Events(r.out) == Events(m.out) + [RekeyStarted]
  {
    hide Arm, RearmFrameDeadline, StartInitiatorRun, InitiatorRun, FailRekey;
    if m.phase.Open? && m.run.None? && m.active.Some? {
      InitiatorStarts(m, Purpose.Rekey, ActiveId(m));
    }
  }

  predicate Silent(m: Machine, run: Run, s: Stepped) {
    Events(s.machine.out) == Events(m.out) && (run.purpose.Rekey? ==> Questions(s.machine.out) == Questions(m.out))
  }

  lemma AuthInitSilent(m: Machine, run: Run, f: Frame)
    ensures Silent(m, run, StepAuthInit(m, run, f))
  {
    hide DecodeAuth, VerifyAuth, RearmFrameDeadline;
  }

  lemma ApprovalSilent(m: Machine, run: Run)
    ensures Silent(m, run, AfterApproval(m, run))
  {
    hide RearmFrameDeadline, StepAuthInit;
    if run.early.Some? {
      AuthInitSilent(m, run.(step := AuthInit).(early := None), run.early.value);
    }
  }

  lemma AfterHellosSilent(m: Machine, run: Run, remote: HelloPayload)
    ensures Silent(m, run, AfterHellos(m, run, remote))
  {
    hide Arm, Cancel, AfterApproval;
    var hellos := if run.role.Initiator? then (run.localHello, remote) else (remote, run.localHello);
    var transcript, shared := TranscriptFromHellos(hellos.0, hellos.1), DiffieHellman(run.ephemeral, remote.ephemeral);
    if transcript.Ok? && shared.Ok? {
      ApprovalSilent(m, Informed(run, remote.identity, transcript.value, shared.value));
    }
  }

  lemma HelloSilent(m: Machine, run: Run, f: Frame)
    ensures Silent(m, run, StepHello(m, run, f))
  {
    hide DecodeHello, AfterHellos, CheckRemoteHello, Sends, Delivers, Events, Talk, Questions;
    if DecodeHello(f).Ok? && run.localHelloFrame.Some? {
      AfterHellosSilent(Push(m, Send(run.localHelloFrame.value)), run.(localHelloFrame := None), DecodeHello(f).value);
    }
  }

  lemma RevealSilent(m: Machine, run: Run, f: Frame)
    ensures Silent(m, run, StepReveal(m, run, f))
  {
    hide DecodeHello, AfterHellos, CheckRemoteHello, Sends, Delivers, Events, Talk, Questions;
    if DecodeHello(f).Ok? {
      AfterHellosSilent(m, run, DecodeHello(f).value);
    }
  }

  /** A step of a run reports nothing to the user, and a rekey asks nothing. */
  lemma StepRunSilent(m: Machine, run: Run, f: Frame)
    ensures Silent(m, run, StepRun(m, run, f))
  {
    hide DecodeAuth, DecodeConfirm, VerifyAuth, VerifyConfirm, RearmFrameDeadline, StepHello, StepReveal, StepAuthInit;
    AuthInitSilent(m, run, f);
    HelloSilent(m, run, f);
    RevealSilent(m, run, f);
  }

  lemma RekeyFrameIsolated(m: Machine, f: Frame)
    requires Valid(m) && m.phase.Open? && m.out == []
    ensures Isolated(m, OnRekeyFrame(m, f))
  {
    hide FailRekey, CompleteRekey, DriveRun, ResolveGlare, OnRekeyFrameIdle, Valid, Failed;
    if m.run.None? {
      RekeyFrameIdleKeeps(m, f);
    } else {
      if DecodeCommit(f).Ok? {
        ResolveGlareKeeps(m, DecodeCommit(f).value);
      }
      RunIsolated(m, f);
    }
    OpenSessions(m);
  }

  lemma OpenSessions(m: Machine)
    requires Valid(m) && m.phase.Open?
    ensures m.active.Some?
  {
  }

  lemma RunIsolated(m: Machine, f: Frame)
    requires Valid(m) && m.phase.Open? && m.out == [] && m.run.Some?
    ensures var (r, result) := DriveRun(m, f);
            match result
            case Ok(None) => Isolated(m, r) && Untouched(m, r)
            case Ok(Some(c)) => Isolated(m, CompleteRekey(r, c))
            case Err(error) => Isolated(m, FailRekey(r, error)) && Untouched(m, FailRekey(r, error))
  {
    hide FailRekey, CompleteRekey, StepRun, Tidy, TableOf;
    DriveRunKeeps(m, f);
    StepRunSilent(m.(run := None), m.run.value, f);
    var (r, result) := DriveRun(m, f);
    if result.Err? {
      FailRekeyKeeps(r, result.error);
    } else if result.value.Some? {
      CompletionIsolated(m, r, result.value.value);
    }
  }

  /** The keys of a confirming run name the active session as their predecessor. */
  lemma KeysNamePrevious(m: Machine)
    requires Valid(m) && m.phase.Open? && m.run.Some? && m.run.value.keys.Some?
    ensures m.run.value.keys.value.hash.transcript.previous == Some(m.active.value.id)
  {
    hide Tidy, TableOf;
  }

  lemma FailedLast(es: seq<Event>, e: Event)
    ensures Failed(es + [e]) <==> Failed(es) || e.RekeyFailed?
  {
    assert (es + [e])[..|es|] == es;
  }

  lemma CompletionIsolated(m: Machine, r: Machine, c: Candidate)
    requires Valid(m) && m.phase.Open? && m.run.Some? && CandidateFits(m.run.value, c)
    requires r == m.(run := None, out := r.out) && Events(r.out) == []
    ensures Isolated(m, CompleteRekey(r, c))
  {
    hide Cancel, Arm, FailRekey, Tidy, TableOf, RunValid, Failed;
    KeysNamePrevious(m);
    if m.active.value.peer != c.peer || m.active.value.id == IdOf(c.keys) {
      FailRekeyKeeps(r, IdentityMismatch);
    } else {
      FailedLast([], RekeyCompleted);
      NoneFailed();
    }
  }

  lemma NoneFailed()
    ensures !Failed([])
  {
  }

  /** A message that went through may start a rekey, which touches no session. */
  lemma TriggerIsolated(m: Machine, next: Machine)
    requires Valid(m) && m.phase.Open? && Valid(next) && next.phase.Open?
    requires SameSessions(m, next) && Events(next.out) == []
    ensures Isolated(m, MaybeTriggerRekey(next))
  {
    hide BeginRekey, Tidy, TableOf, RunValid, Failed;
    BeginRekeyKeeps(next);
    BeginRekeyEvents(next);
    NoneFailed();
    FailedLast([], RekeyStarted);
  }

  lemma RefusalIsolated(m: Machine, rejection: SendRejection)
    requires Valid(m) && m.phase.Open? && m.out == []
    ensures Isolated(m, Push(m, Notify(SendRejected(rejection))))
  {
    hide Tidy, TableOf, Failed;
    NoneFailed();
    FailedLast([], SendRejected(rejection));
  }

  /** The engine once the active session has carried one more message. */
  function MovedOn(m: Machine, active: Session, e: Effect): Machine {
    Push(m.(active := Some(active), messages := m.messages + 1), e)
  }

  lemma MovedOnIsolated(m: Machine, active: Session, e: Effect)
    requires Valid(m) && m.phase.Open? && m.out == [] && !e.Notify?
    requires active.id == m.active.value.id && active.peer == m.active.value.peer
    ensures Isolated(m, MaybeTriggerRekey(MovedOn(m, active, e)))
  {
    hide Tidy, TableOf, RunValid, MaybeTriggerRekey, Isolated, Talk, Questions, Sends, Delivers, Replay, Timely,
      SameTalk;
    SameSession(m, m.(active := Some(active)));
    TriggerIsolated(m, MovedOn(m, active, e));
  }

  lemma SendIsolated(m: Machine, content: seq<byte>)
    requires Valid(m) && m.phase.Open? && m.out == []
    ensures Isolated(m, OnSend(m, content))
  {
    hide MaybeTriggerRekey, Terminate, SealedFrame, Valid, Isolated, Push;
    OpenSessions(m);
    EndedIsolated(m);
    RefusalIsolated(m, TooLarge);
    if |content| <= MAX_CONTENT {
      var sender := m.active.value.sender;
      MovedOnIsolated(m, m.active.value.(sender := AfterEncrypt(sender)), Send(SealedFrame(sender, content)));
    }
  }

  lemma UndecryptedIsolated(m: Machine, next: Machine, f: Frame, error: Error)
    requires Valid(m) && m.phase.Open? && Valid(next) && next.phase.Open? && SameSessions(m, next) && next.out == []
    ensures Isolated(m, OnUndecrypted(next, f, error))
  {
    hide Decrypt, Terminate, Tidy, TableOf, Typestate, TableFits, Failed;
    assert m.active.Some? by {
      OpenSessions(m);
    }
    NoneFailed();
    FailedLast([], DataRejected);
    TerminateKeeps(DecryptDraining(next, f).0, ProtocolViolation, Some(ProtocolError));
  }

  lemma DataIsolated(m: Machine, f: Frame)
    requires Valid(m) && m.phase.Open? && m.out == []
    ensures Isolated(m, OnData(m, f))
  {
    hide MaybeTriggerRekey, OnUndecrypted, Decrypt, Valid, Isolated, Push;
    OpenSessions(m);
    var (receiver, result) := Decrypt(m.active.value.receiver, f);
    var active := m.active.value.(receiver := receiver);
    if result.Ok? {
      MovedOnIsolated(m, active, Deliver(result.value));
    } else {
      SameSession(m, m.(active := Some(active)));
      UndecryptedIsolated(m, m.(active := Some(active)), f, result.error);
    }
  }

  lemma TimeoutIsolated(m: Machine, id: nat)
    requires Valid(m) && m.phase.Open? && m.out == []
    ensures Isolated(m, OnTimeout(m, id))
  {
    hide Terminate, FailRekey, BeginRekey, Tidy, TableOf, Removed, KindOf, RunValid;
    if KindOf(m.deadlines, id).Some? {
      RemovedKeeps(m, id);
      var rest := m.(deadlines := Removed(m.deadlines, id));
      TerminateKeeps(rest, Expired, Some(AuthenticationFailure));
      var kind := KindOf(m.deadlines, id).value;
      if kind.RekeyDue? {
        BeginRekeyKeeps(rest.(blocked := false, late := 0));
      } else if kind.HandshakeFrame? || kind.HandshakeTotal? {
        FailRekeyKeeps(rest, TransportTimeout);
      }
    }
  }

  lemma CloseIsolated(m: Machine, f: Frame)
    requires Valid(m) && m.phase.Open? && m.out == []
    ensures Isolated(m, OnCloseFrame(m, f))
  {
    hide Cancel, Terminate, Tidy, TableOf, RunValid;
    TerminateKeeps(m, ProtocolViolation, Some(ProtocolError));
    if DecodeClose(f).Ok? {
      TerminateKeeps(m, PeerUnauthenticated(DecodeClose(f).value.reason), None);
    }
  }

  /**
   * From Established until Closed: the peer never changes, the active session is replaced only by a
   * completed run that named it as predecessor and then drains, the draining id differs from the active
   * one, a failed rekey leaves both sessions exactly as they were, and no REKEY frame ends the session.
   */
  lemma RekeyIsIsolated(m: Machine, input: Input)
    requires Valid(m) && m.phase.Open?
    ensures var r := Handle(m, input);
            Isolated(m, r)
            && (r.phase.Open? ==>
                  r.active.value.peer == m.active.value.peer
                  && (r.draining.Some? ==> r.draining.value.id != r.active.value.id))
            && (input.FrameReceived? && input.frame.messageType.Rekey? ==> r.phase.Open?)
  {
    hide Terminate, OnFrame, OnSend, BeginRekey, OnTimeout, Tidy, TableOf, RunValid;
    var cleared := m.(out := []);
    HandleKeeps(m, input);
    match input {
      case Start =>
      case FrameReceived(f) => FrameIsolated(cleared, f);
      case SasDecision(approved) =>
      case LocalSend(content) => SendIsolated(cleared, content);
      case LocalClose(reason) => TerminateKeeps(cleared, Local, Some(reason));
      case RequestRekey => BeginRekeyKeeps(cleared);
      case Timeout(id) => TimeoutIsolated(cleared, id);
      case TransportClosed => TerminateKeeps(cleared, TransportLost, None);
      case Malformed(respond) => TerminateKeeps(cleared, ProtocolViolation, if respond then Some(ProtocolError)
          else None);
    }
  }

  lemma FrameIsolated(m: Machine, f: Frame)
    requires Valid(m) && m.phase.Open? && m.out == []
    ensures Isolated(m, OnFrame(m, f)) && (f.messageType.Rekey? ==> OnFrame(m, f).phase.Open?)
  {
    hide Valid, Isolated, Terminate, OnRekeyFrame, OnData, OnCloseFrame;
    OpenSessions(m);
    match f.messageType {
      case Data => DataIsolated(m, f);
      case Close => CloseIsolated(m, f);
      case Handshake => EndedIsolated(m);
      case _ =>
        RekeyFrameIsolated(m, f);
        RekeyFrameKeeps(m, f);
    }
  }

  lemma EndedIsolated(m: Machine)
    requires m.active.Some?
    ensures Isolated(m, Terminate(m, ProtocolViolation, Some(ProtocolError)))
  {
    hide Valid;
    TerminateKeeps(m, ProtocolViolation, Some(ProtocolError));
  }

  /** Over any run of an open engine the peer stays the same until the engine is closed. */
  lemma {:induction false} PeerIsConstant(m: Machine, inputs: seq<Input>)
    requires Valid(m) && m.phase.Open?
    ensures var r := HandleAll(m, inputs);
            r.phase.Ended? || (r.phase.Open? && m.active.Some? && r.active.Some?
                && r.active.value.peer == m.active.value.peer)
    decreases |inputs|
  {
    hide Handle, Isolated;
    OpenSessions(m);
    if inputs != [] {
      var r := Handle(m, inputs[0]);
      HandleKeeps(m, inputs[0]);
      RekeyIsIsolated(m, inputs[0]);
      if r.phase.Open? {
        PeerIsConstant(r, inputs[1..]);
      } else {
        IsolatedEnds(m, r);
        EndedForGood(r, inputs[1..]);
      }
    }
  }

  lemma IsolatedEnds(m: Machine, r: Machine)
    requires m.active.Some? && Isolated(m, r) && !r.phase.Open?
    ensures r.phase.Ended?
  {
  }

  lemma {:induction false} EndedForGood(m: Machine, inputs: seq<Input>)
    requires m.phase.Ended?
    ensures HandleAll(m, inputs).phase.Ended?
    decreases |inputs|
  {
    if inputs != [] {
      EndedForGood(Handle(m, inputs[0]), inputs[1..]);
    }
  }

  /**
   * At every moment of every run of an established engine: the peer stays, the active session is replaced
   * only by a completed run that named it, a failed rekey leaves both sessions as they were, and no REKEY
   * frame ends the session.
   */
  lemma RunsAreIsolated(states: seq<Machine>, inputs: seq<Input>, i: nat)
    requires EngineRun(states, inputs) && i < |inputs| && states[i].phase.Open?
    ensures states[i].active.Some? && Isolated(states[i], states[i + 1])
    ensures states[i + 1].phase.Open? ==>
              states[i + 1].active.Some? && states[i + 1].active.value.peer == states[i].active.value.peer
              && (states[i + 1].draining.Some? ==> states[i + 1].draining.value.id != states[i + 1].active.value.id)
    ensures inputs[i].FrameReceived? && inputs[i].frame.messageType.Rekey? ==> states[i + 1].phase.Open?
  {
    hide Handle, Isolated, Valid;
    ReachableValid(states, inputs, i);
    ReachableValid(states, inputs, i + 1);
    OpenSessions(states[i]);
    if states[i + 1].phase.Open? {
      OpenSessions(states[i + 1]);
    }
    RekeyIsIsolated(states[i], inputs[i]);
  }

  // ------------------------------------------------------------------ frames nobody asked for

  /** A rekey-related frame that is no offer on the active session. */
  predicate Unexpected(m: Machine, f: Frame) {
    (f.messageType.Rekey? || f.messageType.SessionConfirm?)
    && !(f.messageType.Rekey? && DecodeCommit(f).Ok? && NamesActive(m, DecodeCommit(f).value))
  }

  function Received(fs: seq<Frame>): seq<Input> {
    if fs == [] then [] else [FrameReceived(fs[0])] + Received(fs[1..])
  }

  /**
   * As many unexpected frames as the grace allows are dropped without a trace; it is eight frames after a
   * failed rekey. The next unexpected SESSION_CONFIRM ends the session, and an unexpected REKEY frame does not.
   */
  lemma {:induction false} LateFramesGrace(m: Machine, fs: seq<Frame>, next: Frame)
    requires m.phase.Open? && m.run.None? && m.late == |fs|
    requires (forall f :: f in fs ==> Unexpected(m, f)) && Unexpected(m, next)
    ensures var r := HandleAll(m, Received(fs));
            r == m.(late := 0, out := if fs == [] then m.out else [])
            && (Handle(r, FrameReceived(next)).phase.Ended? <==> next.messageType.SessionConfirm?)
    decreases |fs|
  {
    hide Terminate, NoteRekeyRejection, DecodeCommit;
    if fs == [] {
      NextUnexpected(m, next);
    } else {
      assert fs[0] in fs;
      var r := m.(late := m.late - 1, out := []);
      assert Handle(m, FrameReceived(fs[0])) == r;
      assert forall f :: f in fs[1..] ==> f in fs;
      SameActiveUnexpected(m, r, fs, next);
      LateFramesGrace(r, fs[1..], next);
    }
  }

  lemma SameActiveUnexpected(m: Machine, r: Machine, fs: seq<Frame>, next: Frame)
    requires r.active == m.active && (forall f :: f in fs ==> Unexpected(m, f)) && Unexpected(m, next)
    ensures (forall f :: f in fs ==> Unexpected(r, f)) && Unexpected(r, next)
  {
  }

  lemma NextUnexpected(m: Machine, next: Frame)
    requires m.phase.Open? && m.run.None? && m.late == 0 && Unexpected(m, next)
    ensures Handle(m, FrameReceived(next)).phase.Ended? <==> next.messageType.SessionConfirm?
  {
    hide Terminate, DecodeCommit;
    TerminateKeeps(m.(out := []), ProtocolViolation, Some(ProtocolError));
  }

  lemma FailureGrantsGrace(m: Machine, error: Error)
    ensures FailRekey(m, error).late == 8
  {
    hide Cancel, Arm;
  }

  /** A readable CLOSE ends an open engine exactly if it names the active session. */
  lemma CloseIsAddressed(m: Machine, close: ClosePayload)
    requires m.phase.Open?
    ensures Handle(m, FrameReceived(EncodeClose(close))).phase.Ended? <==>
              m.active.Some? && close.sessionId == Some(m.active.value.id)
  {
    hide Terminate, Cancel;
    TerminateKeeps(m.(out := []), PeerUnauthenticated(close.reason), None);
  }
}
