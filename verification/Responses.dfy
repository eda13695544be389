/** What each input obliges an engine to do: what it answers, why it ends, what it counts and when it tries again. */
module Responses {
  import opened Protocol
  import opened Symbolic
  import opened Data
  import opened Machine
  import opened EngineInvariants
  import opened HonestSteps
  import opened LocalSteps
  import CanonicalMap

  // ------------------------------------------------------------------ ends

  /** Nothing was sent, delivered, reported or asked. */
  predicate Unsaid(out: seq<Effect>) {
    Sends(out) == [] && Delivers(out) == [] && Events(out) == [] && Questions(out) == 0
  }

  /** The CLOSE that names a session, or none before Established. */
  function CloseFrame(id: Option<SessionId>, reason: CloseReason): Frame {
    Frame(Close, CloseBody(ClosePayload(id, reason)))
  }

  /**
   * The engine ended for this cause and said nothing else but these frames before; the peer is told the reason,
   * if any, in a CLOSE that names the active session.
   */
  predicate EndsAfter(m: Machine, r: Machine, sends: seq<Frame>, cause: CloseCause, reason: Option<CloseReason>) {
    r.phase.Ended? && r.run.None? && r.active.None? && r.draining.None? && r.deadlines == []
    && Events(r.out) == [Closed(cause)] && Delivers(r.out) == [] && Questions(r.out) == 0
    && Sends(r.out) == sends + if reason.Some? then [CloseFrame(ActiveId(m), reason.value)] else []
  }

  predicate EndsWith(m: Machine, r: Machine, cause: CloseCause, reason: Option<CloseReason>) {
    EndsAfter(m, r, [], cause, reason)
  }

  lemma Terminated(m: Machine, cause: CloseCause, reason: Option<CloseReason>)
    requires Delivers(m.out) == [] && Events(m.out) == [] && Questions(m.out) == 0
    ensures EndsAfter(m, Terminate(m, cause, reason), Sends(m.out), cause, reason)
  {
    hide CancelAll, Sends, Delivers, Events, Questions, Talk, Replay, Timely;
    assert Sends(m.out) + [] == Sends(m.out);
    assert [] + [Closed(cause)] == [Closed(cause)];
  }

  lemma NothingSaid()
    ensures Unsaid([])
  {
  }

  /** What the consumer and the transport do to end the connection. */
  lemma LocalEnds(m: Machine, reason: CloseReason, respond: bool)
    requires !m.phase.Ended?
    ensures EndsWith(m, Handle(m, LocalClose(reason)), Local, Some(reason))
    ensures EndsWith(m, Handle(m, TransportClosed), TransportLost, None)
    ensures EndsWith(m, Handle(m, Malformed(respond)), ProtocolViolation, if respond then Some(ProtocolError) else None)
  {
    hide Terminate, EndsAfter, Sends, Delivers, Events, Questions;
    var cleared := m.(out := []);
    NothingSaid();
    Cleared(m);
    Terminated(cleared, Local, Some(reason));
    Terminated(cleared, TransportLost, None);
    Terminated(cleared, ProtocolViolation, if respond then Some(ProtocolError) else None);
  }

  lemma Cleared(m: Machine)
    ensures forall r, sends, cause, reason ::
              EndsAfter(m.(out := []), r, sends, cause, reason) <==> EndsAfter(m, r, sends, cause, reason)
  {
  }

  /** The user's refusal ends the handshake, and the peer is told. */
  lemma RefusalEnds(m: Machine)
    requires Valid(m) && AwaitsUser(m)
    ensures EndsWith(m, Handle(m, SasDecision(false)), SasDeclined, Some(AuthenticationFailure))
    ensures Sends(Handle(m, SasDecision(false)).out) == [CloseFrame(None, AuthenticationFailure)]
  {
    hide Terminate, Cancel, Tidy, TableOf, RunValid, Sends, Delivers, Events, Questions, Talk;
    NothingSaid();
    var c := Cancel(m.(out := []), SasWait);
    Terminated(c, SasDeclined, Some(AuthenticationFailure));
    SameId(m, c);
  }

  lemma SameId(m: Machine, n: Machine)
    requires n.active == m.active
    ensures forall r, sends, cause, reason ::
              EndsAfter(n, r, sends, cause, reason) <==> EndsAfter(m, r, sends, cause, reason)
    ensures m.active.None? ==> ActiveId(m) == None
  {
  }

  /** A decision that nobody waits for does nothing. */
  lemma UnaskedDecision(m: Machine, approved: bool)
    requires !AwaitsUser(m)
    ensures Handle(m, SasDecision(approved)) == m.(out := [])
  {
  }

  // ------------------------------------------------------------------ sending

  /** One event is reported and nothing else happens. */
  predicate Reports(m: Machine, r: Machine, event: Event) {
    r == m.(out := [Notify(event)])
  }

  /** One more message through the active session is due to trigger a rekey. */
  predicate Triggers(m: Machine) {
    m.messages + 1 >= m.limit && !m.blocked && m.run.None?
  }

  /** What follows the message that was just counted: a rekey if one is due, and nothing else. */
  predicate CountsOn(m: Machine, r: Machine, sends: seq<Frame>, delivers: seq<seq<byte>>) {
    r.phase == m.phase && r.messages == m.messages + 1
    && r.draining == m.draining && r.blocked == m.blocked && r.late == m.late && r.rejections == m.rejections
    && Delivers(r.out) == delivers && Questions(r.out) == 0
    && if Triggers(m) then
         r.run == Some(OfferRun(Purpose.Rekey, ActiveId(m), NextHalf(m)))
         && Sends(r.out) == sends + [Commit(Purpose.Rekey, ActiveId(m), NextHalf(m))]
         && Events(r.out) == [RekeyStarted]
       else
         r.run == m.run && Sends(r.out) == sends && Events(r.out) == []
  }

  predicate Sendable(m: Machine, content: seq<byte>) {
    m.phase.Open? && m.active.Some? && |content| <= MAX_CONTENT && m.active.value.sender.counter < U64_MAX
  }

  lemma BeginRekeyKeepsBooks(m: Machine)
    requires m.phase.Open? && m.active.Some? && m.run.None?
    ensures var r := BeginRekey(m);
            r.messages == m.messages && r.blocked == m.blocked && r.late == m.late && r.rejections == m.rejections
            && Questions(r.out) == Questions(m.out)
  {
    hide Arm, RearmFrameDeadline, StartInitiatorRun, FailRekey;
    InitiatorStarts(m, Purpose.Rekey, ActiveId(m));
  }

  /** One more message through the active session, whose receiver or sender has moved on. */
  lemma Counted(m: Machine, active: Session, e: Effect)
    requires m.phase.Open? && m.active.Some? && m.out == [] && active.id == m.active.value.id
    requires e.Send? || e.Deliver?
    ensures var r := Carried(m.(active := Some(active)), e);
            r.active == Some(active) && CountsOn(m, r, if e.Send? then [e.frame] else [],
                if e.Deliver? then [e.content] else [])
  {
    hide BeginRekey, Sends, Delivers, Events, Questions, Talk, Replay, Timely, OfferRun, Commit;
    var n := m.(active := Some(active), messages := m.messages + 1);
    var pushed := Push(n, e);
    NothingSaid();
    if Triggers(m) {
      Offers(pushed);
      BeginRekeyKeepsBooks(pushed);
    }
  }

  /**
   * An established engine seals and sends all admissible content, whatever else it is doing: the first frame is
   * the next one of its active sender, nothing is refused, and a rekey is offered exactly when this message
   * reaches the limit, rekeys are not held back and none is under way.
   */
  lemma ContentIsSent(m: Machine, content: seq<byte>)
    requires Valid(m) && Sendable(m, content)
    ensures var r, sender := Handle(m, LocalSend(content)), m.active.value.sender;
            Writes(m.(out := []), r, content)
            && r.active == Some(m.active.value.(sender := AfterEncrypt(sender)))
            && CountsOn(m, r, [SealedFrame(sender, content)], [])
            && Sends(r.out) != [] && Sends(r.out)[0] == SealedFrame(sender, content)
  {
    hide Handle, SealedFrame, Carried, AfterEncrypt, Valid, Talk, Questions, Events, Sends, Delivers, Idles, Starts;
    var cleared, sender := m.(out := []), m.active.value.sender;
    SendIsCarried(m, content);
    Counted(cleared, m.active.value.(sender := AfterEncrypt(sender)), Send(SealedFrame(sender, content)));
    CarriedWrote(cleared, content);
  }

  lemma SendIsCarried(m: Machine, content: seq<byte>)
    requires Sendable(m, content)
    ensures var sender := m.active.value.sender;
            Handle(m, LocalSend(content))
              == Carried(m.(out := [], active := Some(m.active.value.(sender := AfterEncrypt(sender)))),
                         Send(SealedFrame(sender, content)))
  {
    hide SealedFrame, Carried, Terminate;
  }

  lemma CarriedWrote(m: Machine, content: seq<byte>)
    requires Sendable(m, content)
    ensures var sender := m.active.value.sender;
            var r := Carried(m.(active := Some(m.active.value.(sender := AfterEncrypt(sender)))),
                             Send(SealedFrame(sender, content)));
            Idles(Wrote(m, content), r) || Starts(Wrote(m, content), r)
  {
    hide SealedFrame, MaybeTriggerRekey, Idles, Starts, Talk, Questions, Events, Sends, Delivers;
    BeginsOrIdles(Wrote(m.(messages := m.messages + 1), content));
    SameWrite(m, content);
  }

  /**
   * Content is refused with a report and no other effect if it is too long, or else if the engine is not
   * established; an exhausted sender ends the connection; nothing else keeps content back.
   */
  lemma ContentIsRefused(m: Machine, content: seq<byte>)
    requires Valid(m) && !m.phase.Ended? && !Sendable(m, content)
    ensures var r := Handle(m, LocalSend(content));
            if |content| > MAX_CONTENT then Reports(m, r, SendRejected(TooLarge))
            else if !m.phase.Open? then Reports(m, r, SendRejected(NotActive))
            else EndsWith(m, r, ProtocolViolation, Some(ProtocolError))
  {
    hide MaybeTriggerRekey, Terminate, EndsAfter, SealedFrame, Tidy, TableOf, RunValid, Sends, Delivers, Events,
      Questions;
    NothingSaid();
    Cleared(m);
    Terminated(m.(out := []), ProtocolViolation, Some(ProtocolError));
    assert [] + [Notify(SendRejected(TooLarge))] == [Notify(SendRejected(TooLarge))];
    assert [] + [Notify(SendRejected(NotActive))] == [Notify(SendRejected(NotActive))];
  }

  /** NotActive is reported exactly for content of admissible length in an engine that is not established. */
  lemma NotActiveIff(m: Machine, content: seq<byte>)
    requires Valid(m) && !m.phase.Ended?
    ensures SendRejected(NotActive) in Events(Handle(m, LocalSend(content)).out)
       <==> !m.phase.Open? && |content| <= MAX_CONTENT
  {
    hide Handle, Valid, Talk, Questions, Sends, Delivers, Writes, SealedFrame;
    if Sendable(m, content) {
      ContentIsSent(m, content);
    } else {
      ContentIsRefused(m, content);
      var r := Handle(m, LocalSend(content));
      if Reports(m, r, SendRejected(TooLarge)) || Reports(m, r, SendRejected(NotActive)) {
        assert r.out[..0] == [];
      }
    }
  }

  // ------------------------------------------------------------------ when it tries again

  /** The time to the deadline of this kind that was set last. */
  function Delay(out: seq<Effect>, kind: DeadlineKind): Option<nat>
    decreases |out|
  {
    if out == [] then None
    else if out[|out| - 1].SetDeadline? && out[|out| - 1].kind == kind then Some(out[|out| - 1].after)
    else Delay(out[..|out| - 1], kind)
  }

  lemma DelayPush(m: Machine, e: Effect, kind: DeadlineKind)
    ensures Delay(Push(m, e).out, kind)
         == if e.SetDeadline? && e.kind == kind then Some(e.after) else Delay(m.out, kind)
  {
    assert (m.out + [e])[..|m.out|] == m.out;
  }

  lemma DelayArm(m: Machine, other: DeadlineKind, after: nat, kind: DeadlineKind)
    requires kind != other
    ensures Delay(Arm(m, other, after).out, kind) == Delay(Cancel(m, other).out, kind)
  {
    hide Cancel;
    var c := Cancel(m, other);
    var d := Deadline(c.nextDeadline, other);
    DelayPush(c.(nextDeadline := d.id + 1, deadlines := c.deadlines + [d]), SetDeadline(d.id, other, after), kind);
  }

  lemma DelayArmed(m: Machine, kind: DeadlineKind, after: nat)
    ensures Delay(Arm(m, kind, after).out, kind) == Some(after)
  {
    hide Cancel;
    var c := Cancel(m, kind);
    var d := Deadline(c.nextDeadline, kind);
    DelayPush(c.(nextDeadline := d.id + 1, deadlines := c.deadlines + [d]), SetDeadline(d.id, kind, after), kind);
  }

  lemma {:induction false} DelayQuiet(out: seq<Effect>, es: seq<Effect>, kind: DeadlineKind)
    requires Quiet(es)
    ensures Delay(out + es, kind) == Delay(out, kind)
    decreases |es|
  {
    if es == [] {
      assert out + es == out;
    } else {
      var n := |es| - 1;
      assert es[n] in es;
      DelayQuiet(out, es[..n], kind);
      assert (out + es)[..|out + es| - 1] == out + es[..n];
    }
  }

  lemma DelayCancel(m: Machine, off: DeadlineKind, kind: DeadlineKind)
    ensures Delay(Cancel(m, off).out, kind) == Delay(m.out, kind)
  {
    CancellationsQuiet(m.deadlines, off);
    DelayQuiet(m.out, Cancellations(m.deadlines, off), kind);
  }

  /**
   * A failed rekey: the run is gone, both sessions stay, rekeys are held back, eight late frames are forgiven,
   * it is reported, and the next attempt comes in thirty seconds.
   */
  predicate FailsAfter(m: Machine, r: Machine, sends: seq<Frame>, failure: RekeyFailure) {
    r.phase == m.phase && r.run.None? && r.active == m.active && r.draining == m.draining
    && r.messages == m.messages && r.rejections == m.rejections && r.blocked && r.late == 8
    && Sends(r.out) == sends && Delivers(r.out) == [] && Events(r.out) == [RekeyFailed(failure)]
    && Questions(r.out) == 0 && Delay(r.out, RekeyDue) == Some(30)
  }

  lemma RekeyFails(m: Machine, error: Error)
    requires Delivers(m.out) == [] && Events(m.out) == [] && Questions(m.out) == 0
    ensures FailsAfter(m, FailRekey(m, error), Sends(m.out), FailureOf(error))
  {
    hide Cancel, Arm, Sends, Delivers, Events, Questions, Talk, Replay, Timely, Delay;
    var armed := Arm(Discarded(m).(blocked := true), RekeyDue, REKEY_RETRY_SECS);
    DelayArmed(Discarded(m).(blocked := true), RekeyDue, REKEY_RETRY_SECS);
    DelayPush(armed, Notify(RekeyFailed(FailureOf(error))), RekeyDue);
    assert [] + [RekeyFailed(FailureOf(error))] == [RekeyFailed(FailureOf(error))];
  }

  /** A rekey of the active session is offered, and everything else is as it was. */
  predicate OffersRekey(m: Machine, r: Machine) {
    r.phase == m.phase && r.run == Some(OfferRun(Purpose.Rekey, ActiveId(m), NextHalf(m)))
    && r.active == m.active && r.draining == m.draining && r.messages == m.messages
    && Sends(r.out) == [Commit(Purpose.Rekey, ActiveId(m), NextHalf(m))] && Delivers(r.out) == []
    && Events(r.out) == [RekeyStarted] && Questions(r.out) == 0
  }

  lemma RekeyBegins(m: Machine)
    requires m.phase.Open? && m.active.Some? && m.run.None? && Unsaid(m.out)
    ensures var r := BeginRekey(m);
            OffersRekey(m, r) && r.blocked == m.blocked && r.late == m.late && r.rejections == m.rejections
  {
    hide BeginRekey, Sends, Delivers, Events, Questions, OfferRun, Commit;
    Offers(m);
    BeginRekeyKeepsBooks(m);
    assert [] + [RekeyStarted] == [RekeyStarted];
  }

  /** A rekey is offered on request by an idle established engine, and by no other. */
  lemma RekeyOnRequest(m: Machine)
    requires Valid(m)
    ensures var r := Handle(m, RequestRekey);
            if m.phase.Open? && m.run.None? then OffersRekey(m, r) && r.blocked == m.blocked
            else r == m.(out := [])
  {
    hide BeginRekey, Tidy, TableOf, RunValid, Sends, Delivers, Events, Questions, OfferRun, Commit;
    NothingSaid();
    if m.phase.Open? && m.run.None? {
      RekeyBegins(m.(out := []));
    } else {
      NotBegun(m.(out := []));
    }
  }

  /** Only the list of deadlines is shorter. */
  predicate Forgets(m: Machine, r: Machine) {
    r == m.(deadlines := r.deadlines, out := [])
  }

  /**
   * What each armed deadline brings about: an unanswered question or a stalled first handshake ends the
   * connection, a stalled rekey fails, a due rekey is offered and no longer held back, and a drained session
   * is dropped.
   */
  lemma TimeoutAnswers(m: Machine, id: nat)
    requires Valid(m) && !m.phase.Ended?
    ensures var r := Handle(m, Timeout(id));
            match KindOf(m.deadlines, id)
            case None => r == m.(out := [])
            case Some(SasWait) => EndsWith(m, r, Expired, Some(AuthenticationFailure))
            case Some(RekeyDue) =>
              !r.blocked && r.late == 0
              && if m.run.None? then OffersRekey(m, r) else Forgets(m.(blocked := false, late := 0), r)
            case Some(Drain) => Forgets(m.(draining := None), r)
            case Some(_) =>
              if m.phase.Handshaking? then EndsWith(m, r, Expired, Some(ResourceLimit))
              else FailsAfter(m, r, [], TimedOut)
  {
    hide Terminate, FailRekey, BeginRekey, Removed, KindOf, Valid, Sends, Delivers, Events, Questions, EndsAfter,
      Delay, OfferRun, Commit;
    NothingSaid();
    var rest := m.(deadlines := Removed(m.deadlines, id), out := []);
    if KindOf(m.deadlines, id).Some? {
      ArmedWhen(m, id);
      SameId(m, rest);
      match KindOf(m.deadlines, id).value {
        case SasWait => Terminated(rest, Expired, Some(AuthenticationFailure));
        case RekeyDue =>
          if m.run.None? {
            RekeyBegins(rest.(blocked := false, late := 0));
          } else {
            NotBegun(rest.(blocked := false, late := 0));
          }
        case Drain =>
        case _ =>
          Terminated(rest, Expired, Some(ResourceLimit));
          RekeyFails(rest, TransportTimeout);
      }
    }
  }

  lemma ArmedWhen(m: Machine, id: nat)
    requires Valid(m) && KindOf(m.deadlines, id).Some?
    ensures match KindOf(m.deadlines, id).value
            case SasWait => m.phase.Handshaking?
            case RekeyDue => m.phase.Open? && m.active.Some?
            case Drain => m.phase.Open?
            case _ => m.phase.Handshaking? || (m.phase.Open? && m.run.Some?)
  {
    hide Tidy, RunValid, Removed, KindOf, TableOf;
    KindIsArmed(m.deadlines, id);
  }
}
