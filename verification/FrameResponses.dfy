/** What each frame obliges an engine to do, established or not. */
module FrameResponses {
  import opened Protocol
  import opened Symbolic
  import opened Data
  import opened Machine
  import opened EngineInvariants
  import opened HonestSteps
  import opened LocalSteps
  import opened Authenticity
  import opened Responses
  import CanonicalMap

  // ------------------------------------------------------------------ frames out of place, and CLOSE

  /** A frame before the start, or a HANDSHAKE frame once established, ends the connection. */
  lemma MisplacedFrame(m: Machine, f: Frame)
    requires m.phase.Idle? || (m.phase.Open? && f.messageType.Handshake?)
    ensures EndsWith(m, Handle(m, FrameReceived(f)), ProtocolViolation, Some(ProtocolError))
  {
    hide Terminate, EndsAfter, Sends, Delivers, Events, Questions;
    NothingSaid();
    Cleared(m);
    Terminated(m.(out := []), ProtocolViolation, Some(ProtocolError));
  }

  /** A CLOSE of this connection: before Established it names no session, and then the active one. */
  predicate Addresses(m: Machine, close: ClosePayload) {
    if m.phase.Handshaking? then close.sessionId.None?
    else close.sessionId.Some? && close.sessionId == ActiveId(m)
  }

  /**
   * An unreadable CLOSE is a violation; one that addresses the connection ends it for the peer's reason, without
   * an answer; one that names the draining session drops that session; any other does nothing.
   */
  lemma CloseAnswers(m: Machine, f: Frame)
    requires Valid(m) && (m.phase.Handshaking? || m.phase.Open?) && f.messageType.Close?
    ensures var r := Handle(m, FrameReceived(f));
            if !f.body.CloseBody? then EndsWith(m, r, ProtocolViolation, Some(ProtocolError))
            else
              var close := f.body.close;
              if Addresses(m, close) then EndsWith(m, r, PeerUnauthenticated(close.reason), None)
              else if m.draining.Some? && close.sessionId == Some(m.draining.value.id) then
                r == m.(draining := None, deadlines := r.deadlines, out := r.out) && Unsaid(r.out)
                && !Has(TableOf(r.deadlines), Drain)
              else r == m.(out := [])
  {
    hide Terminate, EndsAfter, Cancel, Tidy, TableOf, RunValid, Sends, Delivers, Events, Questions, Talk;
    NothingSaid();
    Cleared(m);
    var cleared := m.(out := []);
    Terminated(cleared, ProtocolViolation, Some(ProtocolError));
    if f.body.CloseBody? {
      Terminated(cleared, PeerUnauthenticated(f.body.close.reason), None);
    }
    SetHas(TableOf(m.deadlines), Drain, Drain);
  }

  // ------------------------------------------------------------------ DATA

  /**
   * DATA that the active session opens is delivered and counted; what only the draining session opens is
   * delivered and not counted; what neither opens ends the connection if it is malformed and is reported
   * otherwise. Only the two receivers move on.
   */
  lemma DataAnswers(m: Machine, f: Frame)
    requires Valid(m) && m.phase.Open? && f.messageType.Data?
    ensures m.active.Some?
    ensures var r, s := Handle(m, FrameReceived(f)), m.active.value;
            var (receiver, plain) := Decrypt(s.receiver, f);
            var late := if m.draining.Some? then Some(Decrypt(m.draining.value.receiver, f)) else None;
            var draining :=
              if late.Some? then Some(m.draining.value.(receiver := late.value.0)) else None;
            var read := m.(active := Some(s.(receiver := receiver)), draining := draining);
            if plain.Ok? then r.active == read.active && CountsOn(m, r, [], [plain.value])
            else if late.Some? && late.value.1.Ok? then r == read.(out := [Effect.Deliver(late.value.1.value)])
            else if CanonicalMap.IsMalformed(plain.error) then
              EndsWith(m, r, ProtocolViolation, Some(ProtocolError))
            else Reports(read, r, DataRejected)
  {
    hide Terminate, EndsAfter, Carried, CountsOn, Decrypt, Tidy, TableOf, RunValid, Sends, Delivers, Events,
      Questions, Talk, CanonicalMap.IsMalformed;
    NothingSaid();
    var cleared, s := m.(out := []), m.active.value;
    var (receiver, result) := Decrypt(s.receiver, f);
    if result.Ok? {
      Counted(cleared, s.(receiver := receiver), Effect.Deliver(result.value));
      assert CountsOn(m, Handle(m, FrameReceived(f)), [], [result.value]) by {
        CountsCleared(m);
      }
    } else {
      var read := DecryptDraining(cleared.(active := Some(s.(receiver := receiver))), f).0;
      assert ActiveId(read) == ActiveId(m);
      Terminated(read, ProtocolViolation, Some(ProtocolError));
      SameEnd(m, read);
      assert [] + [Notify(DataRejected)] == [Notify(DataRejected)];
    }
  }

  lemma CountsCleared(m: Machine)
    ensures forall r, sends, delivers :: CountsOn(m.(out := []), r, sends, delivers) ==> CountsOn(m, r, sends, delivers)
  {
    hide OfferRun, Commit, Sends, Delivers, Events, Questions;
  }

  lemma SameEnd(m: Machine, n: Machine)
    requires ActiveId(n) == ActiveId(m)
    ensures forall r, sends, cause, reason ::
              EndsAfter(n, r, sends, cause, reason) <==> EndsAfter(m, r, sends, cause, reason)
  {
  }

  // ------------------------------------------------------------------ offers and stray rekey frames

  /** A COMMIT to rekey the active session. */
  predicate IsOffer(m: Machine, f: Frame) {
    f.messageType.Rekey? && f.body.CommitBody? && f.body.commit.cipherSuite == 1 && f.body.commit.purpose.Rekey?
    && f.body.commit.previous.Some? && f.body.commit.previous == ActiveId(m)
  }

  lemma OfferIsRead(m: Machine, f: Frame)
    ensures f.messageType.Rekey? && DecodeCommit(f).Ok? && NamesActive(m, DecodeCommit(f).value) <==> IsOffer(m, f)
    ensures IsOffer(m, f) ==> DecodeCommit(f) == Ok(f.body.commit)
  {
  }

  /** The engine answers with its HELLO on a run of its next draws. */
  predicate AnswersOffer(m: Machine, r: Machine, commit: CommitPayload) {
    var run := ResponderRun(m, commit);
    r.phase == m.phase && r.active == m.active && r.draining == m.draining
    && r.run == Some(run) && r.rejections == 0 && r.messages == m.messages && r.blocked == m.blocked
    && Sends(r.out) == [HelloFrame(run.localHello)] && Delivers(r.out) == [] && Questions(r.out) == 0
  }

  lemma Answered(m: Machine, commit: CommitPayload, announce: bool)
    requires NamesActive(m, commit) && Unsaid(m.out)
    ensures var r := OnIncomingCommit(m, commit, announce);
            AnswersOffer(m, r, commit) && r.late == m.late && Events(r.out) == if announce then [RekeyStarted] else []
  {
    hide Arm, RearmFrameDeadline, StartResponderRun, FailRekey, Sends, Delivers, Events, Questions, Talk, Replay,
      Timely;
    ResponderStarts(m.(rejections := 0), commit, announce);
    assert [] + [RekeyStarted] == [RekeyStarted];
    var run := ResponderRun(m, commit);
    assert [] + [HelloFrame(run.localHello)] == [HelloFrame(run.localHello)];
  }

  /** Without a run of its own the engine answers an offer, and what it forgave or held against the peer is over. */
  lemma OfferIsAnswered(m: Machine, f: Frame)
    requires Valid(m) && m.phase.Open? && m.run.None? && IsOffer(m, f)
    ensures var r := Handle(m, FrameReceived(f));
            AnswersOffer(m, r, f.body.commit) && r.late == 0 && Events(r.out) == [RekeyStarted]
  {
    hide OnIncomingCommit, DecodeCommit, Sends, Delivers, Events, Questions, Valid;
    NothingSaid();
    OfferIsRead(m.(out := []), f);
    OfferIsRead(m.(late := 0, out := []), f);
    Answered(m.(late := 0, out := []), f.body.commit, true);
    SameRun(m, m.(late := 0, out := []), f.body.commit);
  }

  lemma SameRun(m: Machine, n: Machine, commit: CommitPayload)
    requires m.source == n.source && m.draws == n.draws && m.identity == n.identity
    ensures ResponderRun(m, commit) == ResponderRun(n, commit)
  {
  }

  /** A rejected rekey frame is counted up to three, and the third one is reported. */
  predicate Rejects(m: Machine, r: Machine) {
    r == if m.rejections >= 3 then m.(out := [])
         else m.(rejections := m.rejections + 1,
                 out := if m.rejections == 2 then [Notify(RekeyFailed(Repeated))] else [])
  }

  lemma Rejected(m: Machine)
    ensures Rejects(m, NoteRekeyRejection(m.(out := [])))
  {
    assert [] + [Notify(RekeyFailed(Repeated))] == [Notify(RekeyFailed(Repeated))];
  }

  /**
   * Without a run of its own a frame that offers nothing is forgiven while the grace lasts; after that a
   * SESSION_CONFIRM ends the connection and a REKEY frame counts as a rejection.
   */
  lemma StrayFrame(m: Machine, f: Frame)
    requires Valid(m) && m.phase.Open? && m.run.None? && !IsOffer(m, f)
    requires f.messageType.Rekey? || f.messageType.SessionConfirm?
    ensures var r := Handle(m, FrameReceived(f));
            if m.late > 0 then r == m.(late := m.late - 1, out := [])
            else if f.messageType.SessionConfirm? then EndsWith(m, r, ProtocolViolation, Some(ProtocolError))
            else Rejects(m, r)
  {
    hide Terminate, EndsAfter, NoteRekeyRejection, DecodeCommit, NamesActive, Rejects, Sends, Delivers, Events,
      Questions, Valid;
    NothingSaid();
    Cleared(m);
    OfferIsRead(m.(out := []), f);
    Terminated(m.(out := []), ProtocolViolation, Some(ProtocolError));
    Rejected(m);
  }

  /** An engine that has just offered a rekey itself. */
  predicate HasOffered(m: Machine) {
    m.phase.Open? && m.run.Some? && m.run.value.role.Initiator? && m.run.value.step.Hello?
  }

  /**
   * Two offers that cross: one on another session counts as a rejection; otherwise the greater identity ignores
   * the other's, and the lesser drops its own, answers, and does not report a second start.
   */
  lemma CrossingOffers(m: Machine, f: Frame)
    requires Valid(m) && HasOffered(m) && f.messageType.Rekey? && DecodeCommit(f).Ok?
    ensures m.active.Some?
    ensures var r := Handle(m, FrameReceived(f));
            if !IsOffer(m, f) then Rejects(m, r)
            else if m.identity > m.active.value.peer then r == m.(out := [])
            else AnswersOffer(m, r, f.body.commit) && Events(r.out) == []
  {
    hide OnIncomingCommit, NoteRekeyRejection, Cancel, Rejects, Tidy, TableOf, Sends, Delivers, Events, Questions,
      DriveRun, AnswersOffer, ResponderRun;
    NothingSaid();
    Rejected(m);
    CrossingNames(m, f);
    var dropped := Disarmed(m.(run := None, out := []));
    if IsOffer(m, f) {
      Answered(dropped, f.body.commit, false);
      AnswersSame(m, dropped);
    }
  }

  lemma CrossingNames(m: Machine, f: Frame)
    requires Valid(m) && HasOffered(m) && f.messageType.Rekey? && DecodeCommit(f).Ok?
    ensures m.active.Some? && m.run.value.previous == ActiveId(m) && m.run.value.previous.Some?
    ensures IsOffer(m, f) <==> DecodeCommit(f).value.previous == m.run.value.previous
    ensures IsOffer(m, f) ==> DecodeCommit(f) == Ok(f.body.commit) && NamesActive(m, f.body.commit)
  {
    hide Tidy, TableOf;
  }

  lemma AnswersSame(m: Machine, n: Machine)
    requires OnlyTimers(m.(run := None, out := []), n)
    ensures forall r, commit :: AnswersOffer(n, r, commit) ==> AnswersOffer(m, r, commit)
  {
    hide Sends, Delivers, Questions;
  }
}
