/** What an engine does on local input and on the DATA frames of an honest peer. */
module LocalSteps {
  import opened Protocol
  import opened Symbolic
  import opened Data
  import opened Machine
  import opened EngineInvariants
  import opened HonestSteps
  import opened InFlight

  // ------------------------------------------------------------------ outcomes

  /** Nothing that the peer could notice. */
  predicate Idles(m: Machine, r: Machine) {
    SameParty(m, r) && r.phase == m.phase && r.run == m.run && r.active == m.active && r.draining == m.draining
    && Sends(r.out) == Sends(m.out) && Delivers(r.out) == Delivers(m.out)
  }

  /** A rekey of the active session is offered. */
  predicate Starts(m: Machine, r: Machine) {
    m.phase.Open? && m.run.None? && m.active.Some?
    && SameParty(m, r) && r.phase == m.phase && r.active == m.active && r.draining == m.draining
    && r.run == Some(OfferRun(Purpose.Rekey, ActiveId(m), NextHalf(m)))
    && Sends(r.out) == Sends(m.out) + [Commit(Purpose.Rekey, ActiveId(m), NextHalf(m))]
    && Delivers(r.out) == Delivers(m.out)
  }

  /** The connection ends; at most a CLOSE is sent. */
  ghost predicate Ends(m: Machine, r: Machine) {
    r.phase.Ended? && Delivers(r.out) == Delivers(m.out)
    && (Sends(r.out) == Sends(m.out) || exists f: Frame :: f.messageType.Close? && Sends(r.out) == Sends(m.out) + [f])
  }

  /** The active session has sealed one more content. */
  function Wrote(m: Machine, content: seq<byte>): Machine
    requires m.active.Some? && |content| <= MAX_CONTENT
  {
    var s := m.active.value.sender;
    Push(m.(active := Some(m.active.value.(sender := AfterEncrypt(s)))), Send(SealedFrame(s, content)))
  }

  predicate Writes(m: Machine, r: Machine, content: seq<byte>) {
    m.phase.Open? && m.active.Some? && |content| <= MAX_CONTENT && m.active.value.sender.counter < U64_MAX
    && (Idles(Wrote(m, content), r) || Starts(Wrote(m, content), r))
  }

  /** The active session has opened the frame it awaited. */
  function Took(m: Machine, f: Frame, content: seq<byte>): Machine
    requires m.active.Some?
  {
    Push(m.(active := Some(m.active.value.(receiver := Decrypt(m.active.value.receiver, f).0))), Deliver(content))
  }

  function TookLate(m: Machine, f: Frame, content: seq<byte>): Machine
    requires m.draining.Some?
  {
    Push(m.(draining := Some(m.draining.value.(receiver := Decrypt(m.draining.value.receiver, f).0))), Deliver(content))
  }

  // ------------------------------------------------------------------ lemmas

  lemma EndsAll(m: Machine, cause: CloseCause, notifyPeer: Option<CloseReason>)
    ensures Ends(m, Terminate(m, cause, notifyPeer))
  {
    hide CancelAll, Talk, Questions, Events;
    if notifyPeer.Some? {
      var f := EncodeClose(ClosePayload(ActiveId(m), notifyPeer.value));
      assert Sends(Terminate(m, cause, notifyPeer).out) == Sends(m.out) + [f];
    }
  }

  lemma BeginsOrIdles(m: Machine)
    ensures Idles(m, BeginRekey(m)) || Starts(m, BeginRekey(m))
    ensures Idles(m, MaybeTriggerRekey(m)) || Starts(m, MaybeTriggerRekey(m))
  {
    hide BeginRekey;
    if m.phase.Open? && m.run.None? && m.active.Some? {
      Offers(m);
    } else {
      assert BeginRekey(m) == m by {
        NotBegun(m);
      }
    }
  }

  lemma NotBegun(m: Machine)
    requires !m.phase.Open? || m.run.Some? || m.active.None?
    ensures BeginRekey(m) == m
  {
  }

  /** The timeouts the two-engine system allows: none of a handshake frame, a whole handshake or a drain. */
  predicate Permitted(m: Machine, input: Input) {
    !input.FrameReceived?
    && (input.Timeout? ==> KindOf(m.deadlines, input.id) in {None, Some(SasWait), Some(RekeyDue)})
  }

  lemma SendOutcome(m: Machine, content: seq<byte>)
    requires Valid(m)
    ensures var r := OnSend(m, content);
            Idles(m, r) || Ends(m, r) || Writes(m, r, content)
  {
    hide MaybeTriggerRekey, Terminate, SealedFrame, Tidy, TableOf, RunValid, Talk, Questions, Events, Sends, Delivers,
      Starts, Ends;
    EndsAll(m, ProtocolViolation, Some(ProtocolError));
    if m.active.Some? && m.phase.Open? && EncryptError(m.active.value.sender, content).None? {
      var wrote := Wrote(m.(messages := m.messages + 1), content);
      BeginsOrIdles(wrote);
      SameWrite(m, content);
    }
  }

  lemma SameWrite(m: Machine, content: seq<byte>)
    requires m.active.Some? && m.phase.Open? && |content| <= MAX_CONTENT
    ensures var counted := Wrote(m.(messages := m.messages + 1), content);
            forall r :: (Idles(counted, r) ==> Idles(Wrote(m, content), r))
                && (Starts(counted, r) ==> Starts(Wrote(m, content), r))
  {
    hide SealedFrame, Talk, Questions, Events;
  }

  lemma TimeoutOutcome(m: Machine, id: nat)
    requires Valid(m) && Permitted(m, Timeout(id))
    ensures var r := OnTimeout(m, id);
            Idles(m, r) || Starts(m, r) || Ends(m, r)
  {
    hide Terminate, BeginRekey, Removed, KindOf, Tidy, TableOf, RunValid, Talk, Questions, Events, Ends;
    if KindOf(m.deadlines, id).Some? {
      RemovedKeeps(m, id);
      var rest := m.(deadlines := Removed(m.deadlines, id));
      EndsAll(rest, Expired, Some(AuthenticationFailure));
      EndsOfRest(m, rest);
      var due := rest.(blocked := false, late := 0);
      if KindOf(m.deadlines, id) == Some(RekeyDue) {
        assert m.phase.Open? && m.active.Some?;
        BeginsOrIdles(due);
      }
    }
  }

  lemma EndsOfRest(m: Machine, rest: Machine)
    requires m.out == rest.out
    ensures forall r :: Ends(rest, r) ==> Ends(m, r)
  {
  }

  /** Local input, apart from the answer to a pending question. */
  lemma LocalOutcome(m: Machine, input: Input)
    requires Valid(m) && !m.phase.Ended? && !m.phase.Idle? && Permitted(m, input) && m.out == []
    requires !(input == SasDecision(true) && AwaitsUser(m))
    ensures var r := Handle(m, input);
            Idles(m, r) || Starts(m, r) || Ends(m, r) || (input.LocalSend? && Writes(m, r, input.content))
  {
    hide Terminate, OnFrame, OnSend, BeginRekey, OnTimeout, Valid, Starts, Ends, Writes, Sends, Delivers;
    assert m == m.(out := []);
    match input {
      case Start => assert Idles(m, m);
      case SasDecision(approved) => SasOutcome(m, approved);
      case LocalSend(content) => SendOutcome(m, content);
      case LocalClose(reason) => EndsAll(m, Local, Some(reason));
      case RequestRekey => BeginsOrIdles(m);
      case Timeout(id) => TimeoutOutcome(m, id);
      case TransportClosed => EndsAll(m, TransportLost, None);
      case Malformed(respond) => EndsAll(m, ProtocolViolation, if respond then Some(ProtocolError) else None);
    }
  }

  lemma SasOutcome(m: Machine, approved: bool)
    requires !(approved && AwaitsUser(m))
    ensures Idles(m, OnSas(m, approved)) || Ends(m, OnSas(m, approved))
  {
    hide Cancel, Terminate, AfterApproval, FailInitial, CompleteInitial;
    if AwaitsUser(m) {
      var c := Cancel(m, SasWait);
      EndsAll(c, SasDeclined, Some(AuthenticationFailure));
    }
  }

  // DATA of an honest peer.

  lemma ReadsActive(m: Machine, f: Frame, content: seq<byte>)
    requires m.phase.Open? && m.active.Some? && InOrder(m.active.value.receiver)
    requires Carries(Expected(m.active.value.receiver), f, content)
    ensures var r := OnFrame(m, f);
            Idles(Took(m, f, content), r) || Starts(Took(m, f, content), r)
  {
    hide MaybeTriggerRekey, Decrypt, OnUndecrypted, SealedFrame, Talk, Questions, Events, Sends, Delivers, Starts;
    ReceivesExpected(m.active.value.receiver, f, content);
    assert f.messageType.Data? by {
      CarriedIsData(Expected(m.active.value.receiver), f, content);
    }
    var took := Took(m.(messages := m.messages + 1), f, content);
    BeginsOrIdles(took);
    SameTake(m, f, content);
  }

  lemma CarriedIsData(s: Sender, f: Frame, content: seq<byte>)
    requires Carries(s, f, content)
    ensures f.messageType.Data? && f.body.DataBody? && f.body.envelope.sessionId == s.sessionId
  {
  }

  lemma SameTake(m: Machine, f: Frame, content: seq<byte>)
    requires m.active.Some?
    ensures var counted := Took(m.(messages := m.messages + 1), f, content);
            forall r :: (Idles(counted, r) ==> Idles(Took(m, f, content), r))
                && (Starts(counted, r) ==> Starts(Took(m, f, content), r))
  {
    hide Decrypt, Talk, Questions, Events;
  }

  lemma ReadsDraining(m: Machine, f: Frame, content: seq<byte>)
    requires m.phase.Open? && m.active.Some? && m.draining.Some? && InOrder(m.draining.value.receiver)
    requires Carries(Expected(m.draining.value.receiver), f, content)
    requires m.draining.value.receiver.sessionId != m.active.value.receiver.sessionId
    ensures OnFrame(m, f) == TookLate(m, f, content)
  {
    hide MaybeTriggerRekey, Decrypt, SealedFrame, Terminate;
    ReceivesExpected(m.draining.value.receiver, f, content);
    RejectsOther(m.active.value.receiver, Expected(m.draining.value.receiver), f, content);
    assert f.messageType.Data? by {
      CarriedIsData(Expected(m.draining.value.receiver), f, content);
    }
    assert m.(active := Some(m.active.value.(receiver := m.active.value.receiver))) == m;
  }
}
