/**
 * Whoever follows the timer effects holds the engine's armed ids, whatever the input, and the transport
 * is told to close exactly when the engine ends.
 */
module Deadlines {
  import opened Protocol
  import opened Symbolic
  import opened Data
  import opened Machine
  import opened EngineInvariants

  // ------------------------------------------------------------------ lists of ids

  lemma {:induction false} DroppedAbsent(ds: seq<Deadline>, id: nat)
    requires KindOf(ds, id).None?
    ensures Dropped(Ids(ds), id) == Ids(ds)
  {
    if ds != [] {
      DroppedAbsent(ds[1..], id);
      assert ([ds[0].id] + Ids(ds[1..]))[1..] == Ids(ds[1..]);
    }
  }

  lemma {:induction false} DroppedRemoved(ds: seq<Deadline>, id: nat, bound: nat)
    requires Tidy(ds, bound)
    ensures Dropped(Ids(ds), id) == Ids(if KindOf(ds, id).Some? then Removed(ds, id) else ds)
  {
    if ds != [] {
      assert ([ds[0].id] + Ids(ds[1..]))[1..] == Ids(ds[1..]);
      if ds[0].id == id {
        DroppedAbsent(ds[1..], id);
        assert [] + Ids(ds[1..]) == Ids(ds[1..]);
      } else {
        DroppedRemoved(ds[1..], id, bound);
      }
    }
  }

  lemma {:induction false} IdsAppend(ds: seq<Deadline>, d: Deadline)
    ensures Ids(ds + [d]) == Ids(ds) + [d.id]
  {
    if ds == [] {
      assert ds + [d] == [d];
    } else {
      IdsAppend(ds[1..], d);
      assert (ds + [d])[1..] == ds[1..] + [d];
    }
  }

  lemma {:induction false} ReplayAppend(ids: seq<nat>, out: seq<Effect>, es: seq<Effect>)
    ensures Replay(ids, out + es) == Replay(Replay(ids, out), es)
  {
    if es == [] {
      assert out + es == out;
    } else {
      var n := |es| - 1;
      ReplayAppend(ids, out, es[..n]);
      assert (out + es)[..|out + es| - 1] == out + es[..n];
    }
  }

  /** Following the cancellations of a kind drops exactly its ids. */
  lemma {:induction false} ReplayCancel(ds: seq<Deadline>, kind: DeadlineKind, bound: nat)
    requires Tidy(ds, bound)
    ensures Replay(Ids(ds), Cancellations(ds, kind)) == Ids(Without(ds, kind))
  {
    if !Has(TableOf(ds), kind) {
      WithoutAbsent(ds, kind);
      NoneCancelled(ds, kind);
    } else {
      var id := OnlyOne(ds, kind, bound);
      RemovedIsWithout(ds, id, bound);
      DroppedRemoved(ds, id, bound);
      assert [CancelDeadline(id)][..0] == [];
    }
  }

  lemma {:induction false} NoneCancelled(ds: seq<Deadline>, kind: DeadlineKind)
    requires !Has(TableOf(ds), kind)
    ensures Cancellations(ds, kind) == []
  {
    hide Set, Has;
    if ds != [] {
      TailHas(TableOf(ds[1..]), ds[0].kind, kind);
      NoneCancelled(ds[1..], kind);
    }
  }

  lemma {:induction false} OnlyOne(ds: seq<Deadline>, kind: DeadlineKind, bound: nat) returns (id: nat)
    requires Tidy(ds, bound) && Has(TableOf(ds), kind)
    ensures Cancellations(ds, kind) == [CancelDeadline(id)] && KindOf(ds, id) == Some(kind)
  {
    if ds[0].kind == kind {
      id := ds[0].id;
      NoneCancelled(ds[1..], kind);
    } else {
      id := OnlyOne(ds[1..], kind, bound);
      assert [] + Cancellations(ds[1..], kind) == Cancellations(ds[1..], kind);
    }
  }

  lemma {:induction false} ReplayCancelAll(ds: seq<Deadline>, bound: nat)
    requires Tidy(ds, bound)
    ensures Replay(Ids(ds), AllCancellations(ds)) == []
  {
    if ds != [] {
      var first := CancelDeadline(ds[0].id);
      ReplayAppend(Ids(ds), [first], AllCancellations(ds[1..]));
      assert [first][..0] == [];
      DroppedRemoved(ds, ds[0].id, bound);
      ReplayCancelAll(ds[1..], bound);
    }
  }

  // ------------------------------------------------------------------ the pass over the engine

  /** Who holds some ids before an input, and the first id the engine has not yet given out. */
  datatype Follower = Follower(ids: seq<nat>, next: nat)

  /**
   * The follower has the armed ids, every id it did not have is new, every deadline was set under a new id for
   * its proper time, and the transport was told to close, as the last thing, exactly if the engine ended.
   */
  predicate Followed(held: Follower, m: Machine) {
    Tidy(m.deadlines, m.nextDeadline) && Replay(held.ids, m.out) == Ids(m.deadlines) && Timely(m.out)
    && SetsFrom(m.out, held.next) && held.next <= m.nextDeadline && NoneReturns(held.ids, held.next, Ids(m.deadlines))
    && (CloseTransport in Talk(m.out) <==> m.phase.Ended?)
    && (m.phase.Ended? ==> ClosesLast(m.out))
  }

  /** Of the ids already given out, only held ones are armed. */
  predicate NoneReturns(held: seq<nat>, next: nat, armed: seq<nat>) {
    forall k :: k in armed && k < next ==> k in held
  }

  /** Every deadline is set under an id that was not given out before. */
  predicate SetsFrom(out: seq<Effect>, next: nat) {
    out != [] ==> SetsFrom(out[..|out| - 1], next) && (out[|out| - 1].SetDeadline? ==> next <= out[|out| - 1].id)
  }

  lemma {:induction false} SetsFromEach(out: seq<Effect>, next: nat)
    ensures SetsFrom(out, next) <==> forall e :: e in out && e.SetDeadline? ==> next <= e.id
    decreases |out|
  {
    if out != [] {
      var n := |out| - 1;
      SetsFromEach(out[..n], next);
      assert out == out[..n] + [out[n]];
    }
  }

  lemma QuietSets(out: seq<Effect>, es: seq<Effect>, next: nat)
    requires Quiet(es)
    ensures SetsFrom(out + es, next) <==> SetsFrom(out, next)
  {
    SetsFromEach(out, next);
    SetsFromEach(out + es, next);
  }

  lemma PushSets(m: Machine, e: Effect, next: nat)
    ensures SetsFrom(Push(m, e).out, next) <==> SetsFrom(m.out, next) && (e.SetDeadline? ==> next <= e.id)
  {
    assert (m.out + [e])[..|m.out|] == m.out;
  }

  predicate Alive(held: Follower, m: Machine) {
    Followed(held, m) && !m.phase.Ended?
  }

  predicate ClosesLast(out: seq<Effect>) {
    out != [] && out[|out| - 1].CloseTransport?
  }

  lemma CancelFollowed(held: Follower, m: Machine, kind: DeadlineKind)
    requires Alive(held, m)
    ensures Alive(held, Cancel(m, kind))
  {
    ReplayAppend(held.ids, m.out, Cancellations(m.deadlines, kind));
    ReplayCancel(m.deadlines, kind, m.nextDeadline);
    WithoutIds(m.deadlines, kind);
    CancellationsQuiet(m.deadlines, kind);
    QuietSets(m.out, Cancellations(m.deadlines, kind), held.next);
  }

  lemma {:induction false} WithoutIds(ds: seq<Deadline>, kind: DeadlineKind)
    ensures forall k :: k in Ids(Without(ds, kind)) ==> k in Ids(ds)
  {
    if ds != [] {
      WithoutIds(ds[1..], kind);
      assert ([ds[0]] + Without(ds[1..], kind))[1..] == Without(ds[1..], kind);
      assert [] + Without(ds[1..], kind) == Without(ds[1..], kind);
    }
  }

  lemma CancelAllFollowed(held: Follower, m: Machine)
    requires Alive(held, m)
    ensures Alive(held, CancelAll(m))
  {
    ReplayAppend(held.ids, m.out, AllCancellations(m.deadlines));
    ReplayCancelAll(m.deadlines, m.nextDeadline);
    CancellationsQuiet(m.deadlines, HandshakeFrame);
    QuietSets(m.out, AllCancellations(m.deadlines), held.next);
  }

  lemma ArmFollowed(held: Follower, m: Machine, kind: DeadlineKind, after: nat)
    requires Alive(held, m) && Proper(kind, after)
    ensures Alive(held, Arm(m, kind, after))
  {
    CancelFollowed(held, m, kind);
    var c := Cancel(m, kind);
    var d := Deadline(c.nextDeadline, kind);
    IdsAppend(c.deadlines, d);
    SetHas(TableOf(m.deadlines), kind, kind);
    AppendTidy(c.deadlines, d);
    PushSets(c.(nextDeadline := d.id + 1, deadlines := c.deadlines + [d]), SetDeadline(d.id, kind, after), held.next);
  }

  lemma RearmFollowed(held: Follower, m: Machine, purpose: Purpose, step: Step)
    requires Alive(held, m)
    ensures Alive(held, RearmFrameDeadline(m, purpose, step))
  {
    hide Cancel, Arm, Followed;
    CancelFollowed(held, m, HandshakeFrame);
    ArmFollowed(held, Cancel(m, HandshakeFrame), HandshakeFrame, HANDSHAKE_FRAME_TIMEOUT_SECS);
  }

  lemma PushFollowed(held: Follower, m: Machine, e: Effect)
    requires Alive(held, m) && !IsTimer(e) && !e.CloseTransport?
    ensures Alive(held, Push(m, e))
  {
    hide Tidy, TableOf, SetsFrom;
    PushSets(m, e, held.next);
  }

  /** Any change to other fields. */
  lemma SameFollowed(held: Follower, m: Machine, r: Machine)
    requires Followed(held, m) && r.deadlines == m.deadlines && r.nextDeadline == m.nextDeadline && r.out == m.out
    requires r.phase.Ended? <==> m.phase.Ended?
    ensures Followed(held, r)
  {
  }

  lemma TerminateFollowed(held: Follower, m: Machine, cause: CloseCause, notifyPeer: Option<CloseReason>)
    requires Alive(held, m)
    ensures Followed(held, Terminate(m, cause, notifyPeer))
  {
    hide CancelAll, Sends, Delivers, Events, Questions, Talk, Replay, SetsFrom;
    CancelAllFollowed(held, m);
    var told := Told(CancelAll(m), notifyPeer);
    if notifyPeer.Some? {
      PushSets(CancelAll(m), Send(EncodeClose(ClosePayload(ActiveId(CancelAll(m)), notifyPeer.value))), held.next);
    }
    PushSets(told, Notify(Closed(cause)), held.next);
    PushSets(Push(told, Notify(Closed(cause))), CloseTransport, held.next);
  }

  lemma FailInitialFollowed(held: Follower, m: Machine, error: Error)
    requires Alive(held, m)
    ensures Followed(held, FailInitial(m, error))
  {
    hide Terminate, Followed;
    TerminateFollowed(held, m, SasDeclined, Some(AuthenticationFailure));
    TerminateFollowed(held, m, Unauthentic, Some(AuthenticationFailure));
    TerminateFollowed(held, m, Unauthentic, Some(IdentityChanged));
    TerminateFollowed(held, m, ProtocolViolation, Some(ProtocolError));
  }

  lemma DisarmedFollowed(held: Follower, m: Machine)
    requires Alive(held, m)
    ensures Alive(held, Disarmed(m))
  {
    hide Cancel, Followed;
    CancelFollowed(held, m, HandshakeFrame);
    CancelFollowed(held, Cancel(m, HandshakeFrame), HandshakeTotal);
  }

  lemma FailRekeyFollowed(held: Follower, m: Machine, error: Error)
    requires Alive(held, m)
    ensures Alive(held, FailRekey(m, error))
  {
    hide Disarmed, Arm, Followed, Push;
    var dropped := m.(run := None, late := LATE_REKEY_FRAME_GRACE);
    SameFollowed(held, m, dropped);
    DisarmedFollowed(held, dropped);
    var blocked := Discarded(m).(blocked := true);
    SameFollowed(held, Discarded(m), blocked);
    ArmFollowed(held, blocked, RekeyDue, REKEY_RETRY_SECS);
    PushFollowed(held, Arm(blocked, RekeyDue, REKEY_RETRY_SECS), Notify(RekeyFailed(FailureOf(error))));
  }

  lemma NoteFollowed(held: Follower, m: Machine)
    requires Alive(held, m)
    ensures Alive(held, NoteRekeyRejection(m))
  {
    hide Push, Followed;
    var counted := m.(rejections := m.rejections + 1);
    SameFollowed(held, m, counted);
    PushFollowed(held, counted, Notify(RekeyFailed(Repeated)));
  }

  lemma InitiatorFollowed(held: Follower, m: Machine, purpose: Purpose, previous: Option<SessionId>)
    requires Alive(held, m)
    ensures Alive(held, StartInitiatorRun(m, purpose, previous).0)
  {
    hide Push, Followed, EncodeHello, EncodeCommit;
    SameFollowed(held, m, Drawn(m));
    var hello := LocalHello(m, 1, purpose, Initiator, previous);
    var commit := EncodeCommit(CommitPayload(1, purpose, CommitmentTo(hello), previous));
    if commit.Ok? {
      PushFollowed(held, Drawn(m), Send(commit.value));
      var r := StartInitiatorRun(m, purpose, previous).0;
      if r.out != m.out {
        SameFollowed(held, Push(Drawn(m), Send(commit.value)), r);
      }
    }
  }

  lemma BudgetedFollowed(held: Follower, m: Machine, purpose: Purpose, announce: bool)
    requires Alive(held, m)
    ensures Alive(held, Budgeted(m, purpose, announce))
  {
    hide Push, Followed, Arm;
    var armed := Arm(m, HandshakeTotal, HANDSHAKE_TOTAL_TIMEOUT_SECS);
    ArmFollowed(held, m, HandshakeTotal, HANDSHAKE_TOTAL_TIMEOUT_SECS);
    PushFollowed(held, armed, Notify(RekeyStarted));
  }

  lemma ResponderFollowed(held: Follower, m: Machine, commit: CommitPayload, announce: bool)
    requires Alive(held, m)
    ensures Alive(held, StartResponderRun(m, commit, announce).0)
  {
    hide Push, Followed, EncodeHello, RearmFrameDeadline, Budgeted;
    SameFollowed(held, m, Drawn(m));
    var hello := EncodeHello(LocalHello(m, commit.cipherSuite, commit.purpose, Responder, commit.previous));
    if hello.Ok? {
      var sent := Push(Drawn(m), Send(hello.value));
      PushFollowed(held, Drawn(m), Send(hello.value));
      var run := Run(commit.purpose, Responder, commit.previous, FreshSecret(m),
                     LocalHello(m, commit.cipherSuite, commit.purpose, Responder, commit.previous), None, Some(commit),
                     Reveal, None, None, None, None, None, None);
      var taken := sent.(run := Some(run));
      SameFollowed(held, sent, taken);
      BudgetedFollowed(held, taken, commit.purpose, announce);
      RearmFollowed(held, Budgeted(taken, commit.purpose, announce), commit.purpose, Reveal);
    }
  }

  lemma BeginRekeyFollowed(held: Follower, m: Machine)
    requires Alive(held, m)
    ensures Alive(held, BeginRekey(m))
  {
    hide Push, Followed, StartInitiatorRun, FailRekey, Arm, RearmFrameDeadline;
    if m.phase.Open? && m.run.None? && m.active.Some? {
      var (r, started) := StartInitiatorRun(m, Purpose.Rekey, ActiveId(m));
      InitiatorFollowed(held, m, Purpose.Rekey, ActiveId(m));
      if started.Err? {
        FailRekeyFollowed(held, r, started.error);
      } else {
        var armed := Arm(r, HandshakeTotal, HANDSHAKE_TOTAL_TIMEOUT_SECS);
        ArmFollowed(held, r, HandshakeTotal, HANDSHAKE_TOTAL_TIMEOUT_SECS);
        var rearmed := RearmFrameDeadline(armed, Purpose.Rekey, Hello);
        RearmFollowed(held, armed, Purpose.Rekey, Hello);
        PushFollowed(held, rearmed, Notify(RekeyStarted));
      }
    }
  }

  // Steps of a run.

  lemma AuthInitFollowed(held: Follower, m: Machine, run: Run, f: Frame)
    requires Alive(held, m)
    ensures Alive(held, StepAuthInit(m, run, f).machine)
  {
    hide Push, Followed, DecodeAuth, EncodeAuth, VerifyAuth, RearmFrameDeadline;
    if DecodeAuth(f).Ok? && VerifyAuth(run, DecodeAuth(f).value).Ok? && run.transcript.Some? {
      var auth, keys := DecodeAuth(f).value, VerifyAuth(run, DecodeAuth(f).value).value;
      var reply := EncodeAuth(AuthPayload(run.transcript.value, 1, auth.initiatorSignature,
          Some(SignedBy(m.identity, keys.hash, false))));
      if reply.Ok? {
        SendsAndRearms(held, m, reply.value, run.purpose, ConfirmInit);
      }
    }
  }

  lemma SendsAndRearms(held: Follower, m: Machine, f: Frame, purpose: Purpose, step: Step)
    requires Alive(held, m)
    ensures Alive(held, RearmFrameDeadline(Push(m, Send(f)), purpose, step))
  {
    hide Push, Followed, RearmFrameDeadline;
    PushFollowed(held, m, Send(f));
    RearmFollowed(held, Push(m, Send(f)), purpose, step);
  }

  lemma AuthRespFollowed(held: Follower, m: Machine, run: Run, f: Frame)
    requires Alive(held, m)
    ensures Alive(held, StepAuthResp(m, run, f).machine)
  {
    hide Push, Followed, DecodeAuth, VerifyAuth, RearmFrameDeadline;
    if DecodeAuth(f).Ok? && VerifyAuth(run, DecodeAuth(f).value).Ok? {
      var keys := VerifyAuth(run, DecodeAuth(f).value).value;
      SendsAndRearms(held, m, EncodeConfirm(ConfirmPayload(IdOf(keys), Initiator, MacOf(keys, keys.hash, true))),
          run.purpose, ConfirmResp);
    }
  }

  lemma ApprovalFollowed(held: Follower, m: Machine, run: Run)
    requires Alive(held, m)
    ensures Alive(held, AfterApproval(m, run).machine)
  {
    hide Push, Followed, EncodeAuth, StepAuthInit, RearmFrameDeadline;
    if run.hash.Some? && run.transcript.Some? {
      if run.role.Initiator? {
        var auth := EncodeAuth(AuthPayload(run.transcript.value, 0, SignedBy(m.identity, run.hash.value, true), None));
        if auth.Ok? {
          SendsAndRearms(held, m, auth.value, run.purpose, AuthResp);
        }
      } else if run.early.Some? {
        AuthInitFollowed(held, m, run.(step := AuthInit).(early := None), run.early.value);
      } else {
        RearmFollowed(held, m, run.purpose, AuthInit);
      }
    }
  }

  lemma AfterHellosFollowed(held: Follower, m: Machine, run: Run, remote: HelloPayload)
    requires Alive(held, m)
    ensures Alive(held, AfterHellos(m, run, remote).machine)
  {
    hide Push, Followed, Arm, Cancel, AfterApproval;
    var hellos := if run.role.Initiator? then (run.localHello, remote) else (remote, run.localHello);
    var transcript, shared := TranscriptFromHellos(hellos.0, hellos.1), DiffieHellman(run.ephemeral, remote.ephemeral);
    if transcript.Ok? && shared.Ok? {
      ApprovalFollowed(held, m, Informed(run, remote.identity, transcript.value, shared.value));
      var cancelled := Cancel(m, HandshakeFrame);
      CancelFollowed(held, m, HandshakeFrame);
      var asking := Arm(cancelled, SasWait, SAS_DECISION_TIMEOUT_SECS);
      ArmFollowed(held, cancelled, SasWait, SAS_DECISION_TIMEOUT_SECS);
      PushFollowed(held, asking, RequestSas(HashOf(transcript.value), remote.identity));
    }
  }

  lemma HellosFollowed(held: Follower, m: Machine, run: Run, f: Frame)
    requires Alive(held, m)
    ensures Alive(held, StepHello(m, run, f).machine) && Alive(held, StepReveal(m, run, f).machine)
  {
    hide Push, Followed, DecodeHello, CheckRemoteHello, AfterHellos;
    if DecodeHello(f).Ok? {
      AfterHellosFollowed(held, m, run, DecodeHello(f).value);
      if run.localHelloFrame.Some? {
        PushFollowed(held, m, Send(run.localHelloFrame.value));
        AfterHellosFollowed(held, Push(m, Send(run.localHelloFrame.value)), run.(localHelloFrame := None),
            DecodeHello(f).value);
      }
    }
  }

  lemma StepRunFollowed(held: Follower, m: Machine, run: Run, f: Frame)
    requires Alive(held, m)
    ensures Alive(held, StepRun(m, run, f).machine)
  {
    hide Push, Followed, DecodeConfirm, VerifyConfirm, StepHello, StepReveal, StepAuthResp, StepAuthInit;
    HellosFollowed(held, m, run, f);
    AuthRespFollowed(held, m, run, f);
    AuthInitFollowed(held, m, run, f);
    if run.keys.Some? && run.hash.Some? {
      var reply := EncodeConfirm(ConfirmPayload(IdOf(run.keys.value), Responder,
          MacOf(run.keys.value, run.hash.value, false)));
      PushFollowed(held, m, Send(reply));
    }
  }

  lemma DriveRunFollowed(held: Follower, m: Machine, f: Frame)
    requires Alive(held, m)
    ensures Alive(held, DriveRun(m, f).0)
  {
    hide Followed, StepRun;
    if m.run.Some? {
      var taken := m.(run := None);
      SameFollowed(held, m, taken);
      StepRunFollowed(held, taken, m.run.value, f);
      var s := StepRun(taken, m.run.value, f);
      SameFollowed(held, s.machine, s.machine.(run := Some(s.run)));
    }
  }

  // Completion.

  lemma CompleteInitialFollowed(held: Follower, m: Machine, c: Candidate)
    requires Alive(held, m)
    ensures Alive(held, CompleteInitial(m, c))
  {
    hide Push, Followed, Arm, Cancel, NewSession;
    CancelFollowed(held, m, HandshakeFrame);
    CancelFollowed(held, Cancel(m, HandshakeFrame), SasWait);
    CancelFollowed(held, Cancel(Cancel(m, HandshakeFrame), SasWait), HandshakeTotal);
    var c3 := Cancel(Cancel(Cancel(m, HandshakeFrame), SasWait), HandshakeTotal);
    var established := c3.(active := Some(NewSession(c.keys, c.role, c.peer))).(phase := Open, messages := 0, late := 0,
        rejections := 0);
    SameFollowed(held, c3, established);
    ArmFollowed(held, established, RekeyDue, REKEY_INTERVAL_SECS);
    PushFollowed(held, Arm(established, RekeyDue, REKEY_INTERVAL_SECS), Notify(Established(c.peer)));
  }

  lemma CompleteRekeyFollowed(held: Follower, m: Machine, c: Candidate)
    requires Alive(held, m)
    ensures Alive(held, CompleteRekey(m, c))
  {
    hide Push, Followed, Arm, Disarmed, FailRekey, NewSession;
    FailRekeyFollowed(held, m, IdentityMismatch);
    DisarmedFollowed(held, m);
    if m.active.Some? {
      var replaced := Replaced(Disarmed(m), c);
      SameFollowed(held, Disarmed(m), replaced);
      var draining := Arm(replaced, Drain, REKEY_DRAIN_TIMEOUT_SECS);
      ArmFollowed(held, replaced, Drain, REKEY_DRAIN_TIMEOUT_SECS);
      var due := Arm(draining, RekeyDue, REKEY_INTERVAL_SECS);
      ArmFollowed(held, draining, RekeyDue, REKEY_INTERVAL_SECS);
      var rested := due.(messages := 0, blocked := false, late := 0, rejections := 0);
      SameFollowed(held, due, rested);
      PushFollowed(held, rested, Notify(RekeyCompleted));
    }
  }

  lemma ConcludedFollowed(held: Follower, m: Machine, run: Run, result: Result<Option<Candidate>>)
    requires Alive(held, m)
    ensures Followed(held, Concluded(m, run, result))
  {
    hide Followed, FailInitial, CompleteInitial;
    SameFollowed(held, m, m.(run := Some(run)));
    if result.Err? {
      FailInitialFollowed(held, m, result.error);
    } else if result.value.Some? {
      CompleteInitialFollowed(held, m, result.value.value);
    }
  }

  lemma SasFollowed(held: Follower, m: Machine, approved: bool)
    requires Alive(held, m)
    ensures Followed(held, OnSas(m, approved))
  {
    hide Followed, Cancel, Terminate, AfterApproval, Concluded;
    var c := Cancel(m, SasWait);
    CancelFollowed(held, m, SasWait);
    TerminateFollowed(held, c, SasDeclined, Some(AuthenticationFailure));
    if m.run.Some? {
      var taken := c.(run := None);
      SameFollowed(held, c, taken);
      ApprovalFollowed(held, taken, m.run.value);
      var s := AfterApproval(taken, m.run.value);
      ConcludedFollowed(held, s.machine, s.run, s.result);
    }
  }

  // Frames.

  lemma IncomingCommitFollowed(held: Follower, m: Machine, commit: CommitPayload, announce: bool)
    requires Alive(held, m)
    ensures Alive(held, OnIncomingCommit(m, commit, announce))
  {
    hide Followed, StartResponderRun, FailRekey, NoteRekeyRejection, NamesActive;
    NoteFollowed(held, m);
    var calm := m.(rejections := 0);
    SameFollowed(held, m, calm);
    var (r, started) := StartResponderRun(calm, commit, announce);
    ResponderFollowed(held, calm, commit, announce);
    if started.Err? {
      FailRekeyFollowed(held, r, started.error);
    }
  }

  lemma UnexpectedFollowed(held: Follower, m: Machine, f: Frame)
    requires Alive(held, m)
    ensures Followed(held, OnUnexpected(m, f))
  {
    hide Followed, Terminate, NoteRekeyRejection;
    if m.late > 0 {
      SameFollowed(held, m, m.(late := m.late - 1));
    }
    NoteFollowed(held, m);
    TerminateFollowed(held, m, ProtocolViolation, Some(ProtocolError));
  }

  lemma GlareFollowed(held: Follower, m: Machine, commit: CommitPayload)
    requires Alive(held, m)
    ensures Alive(held, ResolveGlare(m, commit))
  {
    hide Followed, Disarmed, OnIncomingCommit, NoteRekeyRejection;
    NoteFollowed(held, m);
    SameFollowed(held, m, m.(run := None));
    DisarmedFollowed(held, m.(run := None));
    IncomingCommitFollowed(held, Disarmed(m.(run := None)), commit, false);
  }

  lemma RekeyFrameFollowed(held: Follower, m: Machine, f: Frame)
    requires Alive(held, m)
    ensures Followed(held, OnRekeyFrame(m, f))
  {
    hide Followed, DecodeCommit, NamesActive, OnIncomingCommit, OnUnexpected, ResolveGlare, DriveRun, FailRekey,
      CompleteRekey;
    UnexpectedFollowed(held, m, f);
    if DecodeCommit(f).Ok? {
      SameFollowed(held, m, m.(late := 0));
      IncomingCommitFollowed(held, m.(late := 0), DecodeCommit(f).value, true);
      GlareFollowed(held, m, DecodeCommit(f).value);
    }
    var (r, result) := DriveRun(m, f);
    DriveRunFollowed(held, m, f);
    if result.Err? {
      FailRekeyFollowed(held, r, result.error);
    } else if result.value.Some? {
      CompleteRekeyFollowed(held, r, result.value.value);
    }
  }

  lemma CloseFollowed(held: Follower, m: Machine, f: Frame)
    requires Alive(held, m)
    ensures Followed(held, OnCloseFrame(m, f))
  {
    hide Followed, DecodeClose, Terminate, Cancel;
    TerminateFollowed(held, m, ProtocolViolation, Some(ProtocolError));
    if DecodeClose(f).Ok? {
      TerminateFollowed(held, m, PeerUnauthenticated(DecodeClose(f).value.reason), None);
    }
    SameFollowed(held, m, m.(draining := None));
    CancelFollowed(held, m.(draining := None), Drain);
  }

  lemma HandshakingFollowed(held: Follower, m: Machine, f: Frame)
    requires Alive(held, m)
    ensures Followed(held, OnFrameHandshaking(m, f))
  {
    hide Followed, OnCloseFrame, DecodeCommit, StartResponderRun, DriveRun, FailInitial, CompleteInitial;
    CloseFollowed(held, m, f);
    if DecodeCommit(f).Ok? {
      ResponderFollowed(held, m, DecodeCommit(f).value, true);
    }
    var (a, accepted) := AcceptFirstCommit(m, f);
    if accepted.Err? {
      FailInitialFollowed(held, a, accepted.error);
    }
    var (r, result) := DriveRun(m, f);
    DriveRunFollowed(held, m, f);
    if result.Err? {
      FailInitialFollowed(held, r, result.error);
    } else if result.value.Some? {
      CompleteInitialFollowed(held, r, result.value.value);
    }
  }

  lemma CarriedFollowed(held: Follower, m: Machine, e: Effect)
    requires Alive(held, m) && (e.Send? || e.Deliver?)
    ensures Alive(held, Carried(m, e))
  {
    hide Followed, Push, BeginRekey;
    var counted := m.(messages := m.messages + 1);
    SameFollowed(held, m, counted);
    PushFollowed(held, counted, e);
    BeginRekeyFollowed(held, Push(counted, e));
  }

  lemma SendFollowed(held: Follower, m: Machine, content: seq<byte>)
    requires Alive(held, m)
    ensures Followed(held, OnSend(m, content))
  {
    hide Followed, Push, Carried, Terminate, SealedFrame;
    PushFollowed(held, m, Notify(SendRejected(TooLarge)));
    PushFollowed(held, m, Notify(SendRejected(NotActive)));
    TerminateFollowed(held, m, ProtocolViolation, Some(ProtocolError));
    if m.active.Some? {
      var (r, frame) := SealActive(m, content);
      SameFollowed(held, m, r);
      if frame.Ok? {
        CarriedFollowed(held, r, Send(frame.value));
      }
    }
  }

  lemma DataFollowed(held: Follower, m: Machine, f: Frame)
    requires Alive(held, m)
    ensures Followed(held, OnData(m, f))
  {
    hide Followed, Push, Carried, Terminate, Decrypt;
    if m.active.Some? {
      var (r, result) := DecryptActive(m, f);
      SameFollowed(held, m, r);
      if result.Ok? {
        CarriedFollowed(held, r, Deliver(result.value));
      } else {
        var (d, content) := DecryptDraining(r, f);
        SameFollowed(held, r, d);
        PushFollowed(held, d, Notify(DataRejected));
        TerminateFollowed(held, d, ProtocolViolation, Some(ProtocolError));
        if content.Some? {
          PushFollowed(held, d, Deliver(content.value));
        }
      }
    }
  }

  lemma FrameFollowed(held: Follower, m: Machine, f: Frame)
    requires Alive(held, m)
    ensures Followed(held, OnFrame(m, f))
  {
    hide Followed, OnFrameHandshaking, OnData, OnCloseFrame, OnRekeyFrame, Terminate;
    TerminateFollowed(held, m, ProtocolViolation, Some(ProtocolError));
    HandshakingFollowed(held, m, f);
    DataFollowed(held, m, f);
    CloseFollowed(held, m, f);
    RekeyFrameFollowed(held, m, f);
  }

  lemma StartFollowed(held: Follower, m: Machine)
    requires Alive(held, m)
    ensures Followed(held, StartMachine(m))
  {
    hide Followed, Arm, RearmFrameDeadline, StartInitiatorRun, FailInitial;
    var begun := m.(phase := Handshaking);
    SameFollowed(held, m, begun);
    var armed := Arm(begun, HandshakeTotal, HANDSHAKE_TOTAL_TIMEOUT_SECS);
    ArmFollowed(held, begun, HandshakeTotal, HANDSHAKE_TOTAL_TIMEOUT_SECS);
    ArmFollowed(held, armed, HandshakeFrame, HANDSHAKE_FRAME_TIMEOUT_SECS);
    var (r, started) := StartInitiatorRun(armed, Initial, None);
    InitiatorFollowed(held, armed, Initial, None);
    RearmFollowed(held, r, Initial, Hello);
    if started.Err? {
      FailInitialFollowed(held, r, started.error);
    }
  }

  /** The engine once a fired deadline is off its list. */
  function Fired(m: Machine, id: nat): Machine {
    m.(deadlines := if KindOf(m.deadlines, id).Some? then Removed(m.deadlines, id) else m.deadlines)
  }

  lemma TimeoutFollowed(held: Follower, m: Machine, id: nat)
    requires Alive(held, Fired(m, id))
    ensures Followed(held, OnTimeout(m, id))
  {
    hide Followed, Terminate, FailRekey, BeginRekey, KindOf, Removed;
    if KindOf(m.deadlines, id).Some? {
      var rest := Fired(m, id);
      TerminateFollowed(held, rest, Expired, Some(ResourceLimit));
      TerminateFollowed(held, rest, Expired, Some(AuthenticationFailure));
      FailRekeyFollowed(held, rest, TransportTimeout);
      SameFollowed(held, rest, rest.(draining := None));
      SameFollowed(held, rest, rest.(blocked := false, late := 0));
      BeginRekeyFollowed(held, rest.(blocked := false, late := 0));
    }
  }

  // ------------------------------------------------------------------ main result

  /** What a driver holds when it hands in an input: a fired id is already off its list. */
  function Held(m: Machine, input: Input): seq<nat> {
    if input.Timeout? then Dropped(Ids(m.deadlines), input.id) else Ids(m.deadlines)
  }

  /**
   * Following the effects of one input, whatever it is, leaves exactly the armed ids, in the order they
   * were armed; an id that was cancelled or has fired is never armed again, as every new one is unused; each
   * deadline is set for the time its kind allows; and CloseTransport is among the effects, as the last one,
   * exactly when the engine ended.
   */
  lemma EffectsMirrorDeadlines(m: Machine, input: Input)
    requires Valid(m) && !m.phase.Ended?
    ensures var r := Handle(m, input);
            Replay(Held(m, input), r.out) == Ids(r.deadlines) && Timely(r.out)
            && m.nextDeadline <= r.nextDeadline && NoneReturns(Held(m, input), m.nextDeadline, Ids(r.deadlines))
            && (forall e :: e in r.out && e.SetDeadline? ==> m.nextDeadline <= e.id)
            && (CloseTransport in Talk(r.out) <==> r.phase.Ended?) && (r.phase.Ended? ==> ClosesLast(r.out))
  {
    SetsFromEach(Handle(m, input).out, m.nextDeadline);
    hide Terminate, OnFrame, OnSas, OnSend, BeginRekey, OnTimeout, StartMachine, Valid, KindOf, Removed;
    var cleared, held := m.(out := []), Follower(Held(m, input), m.nextDeadline);
    assert Tidy(m.deadlines, m.nextDeadline) by {
      ValidTidy(m);
    }
    if input.Timeout? {
      DroppedRemoved(m.deadlines, input.id, m.nextDeadline);
      FiredTidy(m, input.id);
      TimeoutFollowed(held, cleared, input.id);
    } else {
      assert Alive(held, cleared);
      match input {
        case Start => StartFollowed(held, cleared);
        case FrameReceived(f) => FrameFollowed(held, cleared, f);
        case SasDecision(approved) => SasFollowed(held, cleared, approved);
        case LocalSend(content) => SendFollowed(held, cleared, content);
        case LocalClose(reason) => TerminateFollowed(held, cleared, Local, Some(reason));
        case RequestRekey => BeginRekeyFollowed(held, cleared);
        case TransportClosed => TerminateFollowed(held, cleared, TransportLost, None);
        case Malformed(respond) =>
          TerminateFollowed(held, cleared, ProtocolViolation, if respond then Some(ProtocolError) else None);
        case Timeout(_) =>
      }
    }
  }

  /** The same at every moment of every run. */
  lemma RunsMirrorDeadlines(states: seq<Machine>, inputs: seq<Input>, i: nat)
    requires EngineRun(states, inputs) && i < |inputs| && !states[i].phase.Ended?
    ensures Replay(Held(states[i], inputs[i]), states[i + 1].out) == Ids(states[i + 1].deadlines)
        && Timely(states[i + 1].out)
    ensures states[i].nextDeadline <= states[i + 1].nextDeadline
        && NoneReturns(Held(states[i], inputs[i]), states[i].nextDeadline, Ids(states[i + 1].deadlines))
    ensures CloseTransport in Talk(states[i + 1].out) <==> states[i + 1].phase.Ended?
    ensures states[i + 1].phase.Ended? ==> ClosesLast(states[i + 1].out)
  {
    hide Handle, Valid;
    ReachableValid(states, inputs, i);
    EffectsMirrorDeadlines(states[i], inputs[i]);
  }

  lemma ValidTidy(m: Machine)
    requires Valid(m)
    ensures Tidy(m.deadlines, m.nextDeadline)
  {
  }

  lemma FiredTidy(m: Machine, id: nat)
    requires Tidy(m.deadlines, m.nextDeadline)
    ensures Tidy(Fired(m, id).deadlines, m.nextDeadline)
  {
    if KindOf(m.deadlines, id).Some? {
      RemovedKeeps(m, id);
    }
  }

  /** A timeout that was cancelled after the driver queued it changes nothing and emits nothing. */
  lemma StaleTimeout(m: Machine, id: nat)
    requires KindOf(m.deadlines, id).None?
    ensures Handle(m, Timeout(id)) == m.(out := [])
  {
  }
}
