/** Buffering the initiator's AUTH during the local SAS wait does not change what the engine does. */
module EarlyAuth {
  import opened Protocol
  import opened Symbolic
  import opened Machine
  import opened EngineInvariants

  /** The same engine with `p` already emitted. */
  function After(p: seq<Effect>, m: Machine): Machine {
    m.(out := p + m.out)
  }

  function AfterStep(p: seq<Effect>, s: Stepped): Stepped {
    s.(machine := After(p, s.machine))
  }

  lemma PushAfter(p: seq<Effect>, m: Machine, e: Effect)
    ensures Push(After(p, m), e) == After(p, Push(m, e))
  {
    assert (p + m.out) + [e] == p + (m.out + [e]);
  }

  lemma CancelAfter(p: seq<Effect>, m: Machine, kind: DeadlineKind)
    ensures Cancel(After(p, m), kind) == After(p, Cancel(m, kind))
    ensures CancelAll(After(p, m)) == After(p, CancelAll(m))
  {
    assert (p + m.out) + Cancellations(m.deadlines, kind) == p + (m.out + Cancellations(m.deadlines, kind));
    assert (p + m.out) + AllCancellations(m.deadlines) == p + (m.out + AllCancellations(m.deadlines));
  }

  lemma ArmAfter(p: seq<Effect>, m: Machine, kind: DeadlineKind, after: nat)
    ensures Arm(After(p, m), kind, after) == After(p, Arm(m, kind, after))
  {
    CancelAfter(p, m, kind);
    var c := Cancel(m, kind);
    var d := Deadline(c.nextDeadline, kind);
    PushAfter(p, c.(nextDeadline := d.id + 1, deadlines := c.deadlines + [d]), SetDeadline(d.id, kind, after));
  }

  lemma RearmAfter(p: seq<Effect>, m: Machine, purpose: Purpose, step: Step)
    ensures RearmFrameDeadline(After(p, m), purpose, step) == After(p, RearmFrameDeadline(m, purpose, step))
  {
    CancelAfter(p, m, HandshakeFrame);
    ArmAfter(p, Cancel(m, HandshakeFrame), HandshakeFrame, HANDSHAKE_FRAME_TIMEOUT_SECS);
  }

  lemma TerminateAfter(p: seq<Effect>, m: Machine, cause: CloseCause, notifyPeer: Option<CloseReason>)
    ensures Terminate(After(p, m), cause, notifyPeer) == After(p, Terminate(m, cause, notifyPeer))
  {
    hide CancelAll, Push;
    CancelAfter(p, m, HandshakeFrame);
    var c := CancelAll(m);
    var told :=
      if notifyPeer.Some? then Push(c, Send(EncodeClose(ClosePayload(ActiveId(c), notifyPeer.value)))) else c;
    if notifyPeer.Some? {
      PushAfter(p, c, Send(EncodeClose(ClosePayload(ActiveId(c), notifyPeer.value))));
    }
    PushAfter(p, told, Notify(Closed(cause)));
    PushAfter(p, Push(told, Notify(Closed(cause))), CloseTransport);
  }

  lemma FailInitialAfter(p: seq<Effect>, m: Machine, error: Error)
    ensures FailInitial(After(p, m), error) == After(p, FailInitial(m, error))
  {
    hide Terminate;
    TerminateAfter(p, m, SasDeclined, Some(AuthenticationFailure));
    TerminateAfter(p, m, Unauthentic, Some(AuthenticationFailure));
    TerminateAfter(p, m, Unauthentic, Some(IdentityChanged));
    TerminateAfter(p, m, ProtocolViolation, Some(ProtocolError));
  }

  lemma StepAuthInitAfter(p: seq<Effect>, m: Machine, run: Run, f: Frame)
    ensures StepAuthInit(After(p, m), run, f) == AfterStep(p, StepAuthInit(m, run, f))
    ensures StepAuthInit(m, run, f).result.Ok? ==> StepAuthInit(m, run, f).result.value.None?
  {
    hide Push, RearmFrameDeadline, DecodeAuth, VerifyAuth;
    if DecodeAuth(f).Ok? && VerifyAuth(run, DecodeAuth(f).value).Ok? && run.transcript.Some? {
      var auth, keys := DecodeAuth(f).value, VerifyAuth(run, DecodeAuth(f).value).value;
      var response := EncodeAuth(AuthPayload(run.transcript.value, 1, auth.initiatorSignature,
          Some(SignedBy(m.identity, keys.hash, false))));
      if response.Ok? {
        PushAfter(p, m, Send(response.value));
        RearmAfter(p, Push(m, Send(response.value)), run.purpose, ConfirmInit);
      }
    }
  }

  // ------------------------------------------------------------------ the two orders

  /** A responder that asked its user and has buffered nothing. */
  predicate Waiting(m: Machine) {
    Valid(m) && m.phase.Handshaking? && m.run.Some? && m.run.value.step.Sas?
    && m.run.value.role.Responder? && m.run.value.early.None?
  }

  /** The SAS deadline is withdrawn and the run is taken out. */
  function Decided(m: Machine): Machine {
    Cancel(m.(out := []), SasWait).(run := None)
  }

  lemma NoFrameDeadline(m: Machine)
    requires Waiting(m)
    ensures RearmFrameDeadline(Decided(m), Initial, AuthInit) == Decided(m)
  {
    hide Tidy;
    var d := Decided(m);
    WithoutAbsent(d.deadlines, HandshakeFrame);
    NoCancellation(d.deadlines, HandshakeFrame);
    assert d.out + [] == d.out;
  }

  lemma {:induction false} NoCancellation(ds: seq<Deadline>, kind: DeadlineKind)
    requires !Has(TableOf(ds), kind)
    ensures Cancellations(ds, kind) == []
  {
    hide Set, Has;
    if ds != [] {
      TailHas(TableOf(ds[1..]), ds[0].kind, kind);
      NoCancellation(ds[1..], kind);
    }
  }

  /** The frame waits; nothing else happens. */
  lemma FrameFirst(m: Machine, f: Frame)
    requires Waiting(m) && f.messageType.Handshake?
    ensures Handle(m, FrameReceived(f)) == m.(out := [], run := Some(m.run.value.(early := Some(f))))
  {
  }

  lemma FrameThenDecision(m: Machine, f: Frame)
    requires Waiting(m) && f.messageType.Handshake?
    ensures var s := StepAuthInit(Decided(m), Approved(m.run.value), f);
            var r := Handle(Handle(m, FrameReceived(f)), SasDecision(true));
            r == (if s.result.Err? then FailInitial(s.machine, s.result.error) else s.machine.(run := Some(s.run)))
  {
    hide StepAuthInit, FailInitial, Cancel, OnFrame;
    FrameFirst(m, f);
    var m1 := m.(out := [], run := Some(m.run.value.(early := Some(f))));
    CancelIgnoresRun(m1, m.(out := []), SasWait);
    StepAuthInitAfter([], Decided(m), Approved(m.run.value), f);
    assert m1.run.value.(step := AuthInit).(early := None) == Approved(m.run.value);
  }

  lemma CancelIgnoresRun(m: Machine, r: Machine, kind: DeadlineKind)
    requires m == r.(run := m.run)
    ensures Cancel(m, kind).(run := None) == Cancel(r, kind).(run := None)
  {
  }

  lemma DecisionThenFrame(m: Machine, f: Frame)
    requires Waiting(m) && f.messageType.Handshake?
    ensures var approved := Handle(m, SasDecision(true));
            var s := StepAuthInit(Decided(m).(out := []), Approved(m.run.value), f);
            approved == Decided(m).(run := Some(Approved(m.run.value)))
            && Handle(approved, FrameReceived(f))
                 == (if s.result.Err? then FailInitial(s.machine, s.result.error) else s.machine.(run := Some(s.run)))
  {
    hide StepAuthInit, FailInitial, Cancel, RearmFrameDeadline, StepHello, StepReveal, StepAuthResp, StepConfirmResp,
      StepConfirmInit, CompleteInitial;
    NoFrameDeadline(m);
    assert m.run.value.(step := AuthInit) == Approved(m.run.value);
    StepAuthInitAfter([], Decided(m).(out := []), Approved(m.run.value), f);
  }

  /**
   * For a responder waiting on its user, frame then decision and decision then frame emit the same
   * effects, deadline ids included, and end in the same state, whatever the frame and the decision.
   */
  lemma EarlyAuthCommutes(m: Machine, f: Frame, approved: bool)
    requires Waiting(m) && f.messageType.Handshake?
    ensures var a := Handle(m, FrameReceived(f));
            var a' := Handle(a, SasDecision(approved));
            var b := Handle(m, SasDecision(approved));
            var b' := Handle(b, FrameReceived(f));
            a.out + a'.out == b.out + b'.out && a'.(out := []) == b'.(out := [])
  {
    hide Handle;
    if approved {
      ApprovedCommutes(m, f);
    } else {
      RejectedCommutes(m, f);
    }
  }

  lemma ApprovedCommutes(m: Machine, f: Frame)
    requires Waiting(m) && f.messageType.Handshake?
    ensures var a := Handle(m, FrameReceived(f));
            var a' := Handle(a, SasDecision(true));
            var b := Handle(m, SasDecision(true));
            var b' := Handle(b, FrameReceived(f));
            a.out + a'.out == b.out + b'.out && a'.(out := []) == b'.(out := [])
  {
    hide Handle, StepAuthInit, FailInitial, Cancel;
    var d := Decided(m);
    FrameFirst(m, f);
    FrameThenDecision(m, f);
    DecisionThenFrame(m, f);
    assert After(d.out, d.(out := [])) == d by {
      assert d.out + [] == d.out;
    }
    StepAuthInitAfter(d.out, d.(out := []), Approved(m.run.value), f);
    var s := StepAuthInit(d.(out := []), Approved(m.run.value), f);
    if s.result.Err? {
      FailInitialAfter(d.out, s.machine, s.result.error);
    }
  }

  /** The user's refusal ends the run alike whether or not an AUTH waits in it. */
  lemma DeclineWhileBuffered(m: Machine, f: Frame)
    requires m.run.Some?
    ensures var buffered := m.(run := Some(m.run.value.(early := Some(f))));
            Terminate(Cancel(buffered, SasWait), SasDeclined, Some(AuthenticationFailure))
              == Terminate(Cancel(m, SasWait), SasDeclined, Some(AuthenticationFailure))
            && Terminate(Cancel(m, SasWait), SasDeclined, Some(AuthenticationFailure)).phase.Ended?
  {
    hide Sends, Delivers, Events, Talk, Questions, SameTalk, Tidy, TableOf, Replay, Timely, Without, Cancellations,
      AllCancellations;
  }

  lemma RejectedCommutes(m: Machine, f: Frame)
    requires Waiting(m) && f.messageType.Handshake?
    ensures var a := Handle(m, FrameReceived(f));
            var a' := Handle(a, SasDecision(false));
            var b := Handle(m, SasDecision(false));
            var b' := Handle(b, FrameReceived(f));
            a.out + a'.out == b.out + b'.out && a'.(out := []) == b'.(out := [])
  {
    hide OnFrame, Cancel, Terminate, Sends, Delivers, Events, Talk, Questions, SameTalk, Tidy, TableOf;
    FrameFirst(m, f);
    var silent := m.(out := []);
    DeclineWhileBuffered(silent, f);
  }
}
