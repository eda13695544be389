/**
 * Frames that reach an engine whose run is over, or was never the one they belong to: DATA of either
 * session, and the handshake frames of an attempt the reader has given up.
 */
module Stragglers {
  import opened Protocol
  import opened Symbolic
  import opened Data
  import opened Machine
  import opened EngineInvariants
  import opened HonestSteps
  import opened InFlight
  import opened Ratchet
  import opened Plaintext
  import CanonicalMap

  // ------------------------------------------------------------------ kinds of frames

  /** A DATA frame that some sender made of admissible content. */
  ghost predicate HonestData(f: Frame) {
    exists s: Sender, c: seq<byte> :: Carries(s, f, c)
  }

  /** A rekey frame that offers nothing: a HELLO or an AUTH. */
  predicate Chatter(f: Frame) {
    f.messageType.Rekey? && DecodeCommit(f).Err?
  }

  predicate Countersigned(f: Frame) {
    DecodeAuth(f).Ok? && DecodeAuth(f).value.stage == 1
  }

  ghost predicate Orderly(chan: seq<Frame>) {
    forall f :: f in chan ==> IsControl(f) || HonestData(f)
  }

  /** A channel whose writer is still there holds control frames and genuine DATA only. */
  lemma {:induction false} GoodOrderly(chan: seq<Frame>, v: View, cs: seq<seq<byte>>, tip: Tip)
    requires Good(chan, v, cs, tip) && !tip.Gone?
    ensures Orderly(chan)
    decreases |chan|
  {
    if chan != [] {
      assert chan == [chan[0]] + chan[1..];
      if !chan[0].messageType.Data? {
        GoodOrderly(chan[1..], AfterControl(v, chan[0]), cs, tip);
      } else if GoodDrain(chan, v, cs, tip) {
        assert HonestData(chan[0]);
        GoodOrderly(chan[1..], v.(drain := Some(AfterEncrypt(v.drain.value))), cs[1..], tip);
      } else {
        assert HonestData(chan[0]);
        GoodOrderly(chan[1..], v.(active := Some(AfterEncrypt(v.active.value)), drain := None), cs[1..], tip);
      }
    }
  }

  /** The frames of an honest rekey, by kind. */
  lemma HonestKinds(p: Pairing)
    requires p.purpose.Rekey? && p.previous.Some?
    ensures Chatter(Answer(p)) && Chatter(RevealFrame(p)) && Chatter(FirstAuth(p)) && Chatter(SecondAuth(p))
    ensures !Countersigned(Answer(p)) && !Countersigned(FirstAuth(p))
  {
  }

  // ------------------------------------------------------------------ DATA

  /** Refusing a genuine frame is never a reason to end the connection. */
  lemma MildRefusal(r: Receiver, f: Frame)
    requires HonestData(f)
    ensures Decrypt(r, f).1.Err? ==> !CanonicalMap.IsMalformed(Decrypt(r, f).1.error)
  {
    hide Prepared, Classify, EncodePlaintext, Pad, DecodePlaintext;
    var s: Sender, c: seq<byte> :| Carries(s, f, c);
    OpensPadded(s, c);
  }

  /** Two states of one party on the same sessions. */
  predicate Alike(m: Machine, t: Machine) {
    m.role == t.role && m.identity == t.identity && m.source == t.source && m.draws == t.draws && m.phase == t.phase
    && m.active == t.active && m.draining == t.draining
  }

  /** The engine stays where it is; its sessions may have moved on. */
  predicate StaysPut(m: Machine, r: Machine) {
    r.phase == m.phase && r.run == m.run && r.blocked == m.blocked && r.late == m.late
    && r.active.Some? && m.active.Some? && r.active.value.id == m.active.value.id
    && r.active.value.peer == m.active.value.peer && r.identity == m.identity
    && Sends(r.out) == Sends(m.out)
  }

  /** Neither a run that can be pursued nor one that may begin. */
  predicate Settled(m: Machine) {
    m.run.Some? || m.blocked
  }

  lemma NoTrigger(m: Machine)
    requires Settled(m)
    ensures MaybeTriggerRekey(m) == m
  {
  }

  /** What DATA does to the two sessions, and what it delivers. */
  function Opened(active: Session, draining: Option<Session>, f: Frame):
      (Option<Session>, Option<Session>, seq<seq<byte>>)
  {
    var (receiver, result) := Decrypt(active.receiver, f);
    var active := Some(active.(receiver := receiver));
    if result.Ok? then (active, draining, [result.value])
    else if draining.None? then (active, draining, [])
    else
      var (late, rescued) := Decrypt(draining.value.receiver, f);
      (active, Some(draining.value.(receiver := late)), if rescued.Ok? then [rescued.value] else [])
  }

  lemma DataStaysPut(m: Machine, f: Frame)
    requires m.phase.Open? && m.active.Some? && Settled(m) && HonestData(f)
    ensures StaysPut(m, OnFrame(m, f))
    ensures var r, read := OnFrame(m, f), Opened(m.active.value, m.draining, f);
            r.role == m.role && r.source == m.source && r.draws == m.draws && r.active == read.0
            && r.draining == read.1 && Delivers(r.out) == Delivers(m.out) + read.2
  {
    hide Decrypt, MaybeTriggerRekey, OnUndecrypted, Terminate, Talk, Questions, Events;
    MildRefusal(m.active.value.receiver, f);
    assert f.messageType.Data? by {
      HonestIsData(f);
    }
    var (r, result) := DecryptActive(m, f);
    if result.Ok? {
      NoTrigger(Push(r.(messages := r.messages + 1), Deliver(result.value)));
    } else {
      UndecryptedStaysPut(r, f, result.error);
    }
  }

  lemma UndecryptedStaysPut(m: Machine, f: Frame, error: Error)
    requires m.phase.Open? && m.active.Some? && !CanonicalMap.IsMalformed(error)
    ensures StaysPut(m, OnUndecrypted(m, f, error))
    ensures var r := OnUndecrypted(m, f, error);
            r.role == m.role && r.source == m.source && r.draws == m.draws && r.active == m.active
            && (if m.draining.None? then r.draining == m.draining && Delivers(r.out) == Delivers(m.out) + []
                else
                  var (late, rescued) := Decrypt(m.draining.value.receiver, f);
                  r.draining == Some(m.draining.value.(receiver := late))
                  && Delivers(r.out) == Delivers(m.out) + if rescued.Ok? then [rescued.value] else [])
  {
    hide Decrypt, Terminate, Talk, Questions, Events;
  }

  lemma HonestIsData(f: Frame)
    requires HonestData(f)
    ensures f.messageType.Data?
  {
  }

  /** Whether it pursues a run or has given it up, an engine does the same with DATA. */
  lemma DataAlike(m: Machine, t: Machine, f: Frame)
    requires m.phase.Open? && m.active.Some? && Alike(m, t) && Settled(m) && Settled(t) && HonestData(f)
    requires Delivers(m.out) == Delivers(t.out)
    ensures Alike(OnFrame(m, f), OnFrame(t, f)) && Delivers(OnFrame(m, f).out) == Delivers(OnFrame(t, f).out)
  {
    hide OnFrame, Opened;
    DataStaysPut(m, f);
    DataStaysPut(t, f);
  }

  // ------------------------------------------------------------------ giving up, and what comes late

  predicate HandshakeTimeout(m: Machine, id: nat) {
    KindOf(m.deadlines, id) in {Some(HandshakeFrame), Some(HandshakeTotal)}
  }

  /** A handshake timeout in an established engine: the run is gone, and nothing else the peer could see. */
  lemma GivesUp(m: Machine, id: nat)
    requires Valid(m) && m.phase.Open? && m.out == [] && HandshakeTimeout(m, id)
    ensures m.run.Some?
    ensures var r := Handle(m, Timeout(id));
            Alike(r, m) && r.run.None? && r.blocked && r.late > 0 && Sends(r.out) == [] && Delivers(r.out) == []
            && Events(r.out) == [RekeyFailed(TimedOut)]
  {
    hide FailRekey, Removed, Tidy, RunValid, Talk, Questions, Replay, Follow, Sends, Delivers, Events;
    assert m.(out := []) == m;
    RunIsArmed(m, id);
    FailureSays(m.(deadlines := Removed(m.deadlines, id)), TransportTimeout);
  }

  lemma RunIsArmed(m: Machine, id: nat)
    requires Valid(m) && m.phase.Open? && HandshakeTimeout(m, id)
    ensures m.run.Some?
  {
    hide Tidy, RunValid;
    KindIsArmed(m.deadlines, id);
  }

  lemma {:induction false} KindIsArmed(ds: seq<Deadline>, id: nat)
    requires KindOf(ds, id).Some?
    ensures Has(TableOf(ds), KindOf(ds, id).value)
  {
    if ds[0].id != id {
      KindIsArmed(ds[1..], id);
    }
  }

  lemma FailureSays(m: Machine, error: Error)
    requires m.out == []
    ensures var r := FailRekey(m, error);
            Alike(r, m) && r.run.None? && r.blocked && r.late > 0 && Sends(r.out) == []
            && Delivers(r.out) == [] && Events(r.out) == [RekeyFailed(FailureOf(error))]
  {
    hide Cancel, Arm, Tidy, TableOf, RunValid, Talk, Questions, Replay, Follow;
    assert Sends([]) == [] && Delivers([]) == [] && Events([]) == [];
  }

  /** Without a run, a rekey frame that offers nothing and an early enough confirmation are dropped. */
  lemma IdleDrops(m: Machine, f: Frame)
    requires m.phase.Open? && m.run.None? && (Chatter(f) || (f.messageType.SessionConfirm? && m.late > 0))
    ensures var r := OnFrame(m, f);
            Alike(r, m) && r.run.None? && r.blocked == m.blocked && Sends(r.out) == Sends(m.out)
            && Delivers(r.out) == Delivers(m.out)
  {
    hide DecodeCommit, OnIncomingCommit, Terminate, Talk, Questions, Events;
  }

  /**
   * A rekey run that meets a HELLO or an AUTH goes on in its role or fails; it says nothing but HELLOs and
   * AUTHs, and without a countersignature it never confirms.
   */
  lemma RunMutters(m: Machine, f: Frame)
    requires Valid(m) && m.phase.Open? && m.run.Some? && m.out == [] && Chatter(f)
    requires m.run.value.role.Initiator? ==> !Countersigned(f)
    ensures var r := OnFrame(m, f);
            Alike(r, m) && Delivers(r.out) == [] && (forall g :: g in Sends(r.out) ==> Chatter(g))
            && (if r.run.Some? then r.run.value.role == m.run.value.role else r.blocked)
  {
    hide DecodeCommit, Tidy, TableOf, FailRekey, CompleteRekey, StepRun, ResolveGlare, Talk, Questions, Events,
      RunValid;
    var taken, run := m.(run := None), m.run.value;
    RunOfOpen(m);
    StepMutters(taken, run, f);
    var s := StepRun(taken, run, f);
    if s.result.Err? {
      StillSettling(s.machine, s.result.error);
    }
  }

  lemma RunOfOpen(m: Machine)
    requires Valid(m) && m.phase.Open? && m.run.Some?
    ensures m.run.value.purpose.Rekey? && RunValid(m.identity, m.active, m.run.value)
  {
  }

  /** A failed step has sent nothing that the failure would not keep. */
  lemma StillSettling(m: Machine, error: Error)
    requires (forall g :: g in Sends(m.out) ==> Chatter(g)) && Delivers(m.out) == []
    ensures var r := FailRekey(m, error);
            Alike(r, m) && r.run.None? && r.blocked && Sends(r.out) == Sends(m.out) && Delivers(r.out) == []
  {
    hide Cancel, Arm, Chatter, Tidy, TableOf, Talk, Questions, Events;
  }

  lemma StepMutters(m: Machine, run: Run, f: Frame)
    requires m.phase.Open? && m.run.None? && m.out == [] && Chatter(f) && run.purpose.Rekey?
    requires RunValid(m.identity, m.active, run)
    requires run.role.Initiator? ==> !Countersigned(f)
    ensures var s := StepRun(m, run, f);
            Alike(s.machine, m) && s.machine.run.None? && Delivers(s.machine.out) == []
            && (forall g :: g in Sends(s.machine.out) ==> Chatter(g))
            && (s.result.Ok? ==> s.result.value.None? && s.run.role == run.role)
  {
    hide StepHello, StepReveal, StepAuthInit, Chatter, RunValid;
    assert Sends([]) == [] && Delivers([]) == [];
    match run.step {
      case Hello => HelloMutters(m, run, f);
      case Reveal => RevealMutters(m, run, f);
      case Sas => NoSas(m, run);
      case AuthResp => NotCountersigned(m, run, f);
      case AuthInit => AuthMutters(m, run, f);
      case ConfirmResp => NoConfirmation(m, run, f);
      case ConfirmInit => NoConfirmation(m, run, f);
    }
  }

  lemma NoSas(m: Machine, run: Run)
    requires RunValid(m.identity, m.active, run) && run.purpose.Rekey?
    ensures !run.step.Sas?
  {
  }

  lemma NotCountersigned(m: Machine, run: Run, f: Frame)
    requires run.step.AuthResp? && RunValid(m.identity, m.active, run)
    requires run.role.Initiator? ==> !Countersigned(f)
    ensures StepAuthResp(m, run, f).machine == m && StepAuthResp(m, run, f).result.Err?
  {
    hide VerifyAuth;
  }

  lemma NoConfirmation(m: Machine, run: Run, f: Frame)
    requires Chatter(f)
    ensures StepConfirmResp(m, run, f).machine == m && StepConfirmResp(m, run, f).result.Err?
    ensures StepConfirmInit(m, run, f).machine == m && StepConfirmInit(m, run, f).result.Err?
  {
  }

  /** What a step says on top of what was said. */
  predicate Mutters(m: Machine, run: Run, s: Stepped, words: seq<Frame>) {
    Alike(s.machine, m) && s.machine.run.None? && Delivers(s.machine.out) == Delivers(m.out)
    && (Sends(s.machine.out) == Sends(m.out) || Sends(s.machine.out) == Sends(m.out) + words)
    && (s.result.Ok? ==> s.result.value.None? && s.run.role == run.role)
  }

  lemma AuthMutters(m: Machine, run: Run, f: Frame)
    requires m.run.None? && m.out == [] && run.step.AuthInit? && run.purpose.Rekey?
    requires RunValid(m.identity, m.active, run)
    ensures var s := StepAuthInit(m, run, f);
            Alike(s.machine, m) && s.machine.run.None? && Delivers(s.machine.out) == []
            && (forall g :: g in Sends(s.machine.out) ==> Chatter(g))
            && (s.result.Ok? ==> s.result.value.None? && s.run.role == run.role)
  {
    hide RearmFrameDeadline, VerifyAuth, DecodeAuth, EncodeAuth, Chatter, Talk, Questions, Events;
    assert Sends([]) == [] && Delivers([]) == [];
    if DecodeAuth(f).Ok? && VerifyAuth(run, DecodeAuth(f).value).Ok? {
      var keys := VerifyAuth(run, DecodeAuth(f).value).value;
      AuthChatters(AuthPayload(run.transcript.value, 1, DecodeAuth(f).value.initiatorSignature,
          Some(SignedBy(m.identity, keys.hash, false))));
    }
  }

  lemma AuthChatters(a: AuthPayload)
    requires a.transcript.purpose.Rekey?
    ensures EncodeAuth(a).Ok? ==> Chatter(EncodeAuth(a).value)
  {
  }

  lemma ApprovalMutters(m: Machine, run: Run) returns (word: Frame)
    requires m.run.None? && run.purpose.Rekey? && run.early.None?
    requires run.transcript.Some? ==> run.transcript.value.purpose.Rekey?
    ensures Chatter(word) && Mutters(m, run, AfterApproval(m, run), [word])
  {
    hide RearmFrameDeadline, Talk, Questions, Events;
    word := if run.transcript.Some? && run.hash.Some? && run.role.Initiator? then
              Frame(MessageType.Rekey,
                    AuthBody(AuthPayload(run.transcript.value, 0, SignedBy(m.identity, run.hash.value, true), None)))
            else Frame(MessageType.Rekey, Unreadable(InvalidHandshake));
  }

  lemma HellosMutter(m: Machine, run: Run, remote: HelloPayload) returns (word: Frame)
    requires m.run.None? && run.purpose.Rekey? && run.early.None? && run.localHello.purpose.Rekey?
    ensures Chatter(word) && Mutters(m, run, AfterHellos(m, run, remote), [word])
  {
    hide AfterApproval, Chatter, Talk, Questions, Events;
    word := Frame(MessageType.Rekey, Unreadable(InvalidHandshake));
    assert Chatter(word) by {
      Garbled();
    }
    var hellos := if run.role.Initiator? then (run.localHello, remote) else (remote, run.localHello);
    var transcript, shared := TranscriptFromHellos(hellos.0, hellos.1), DiffieHellman(run.ephemeral, remote.ephemeral);
    if transcript.Ok? && shared.Ok? {
      word := ApprovalMutters(m, Informed(run, remote.identity, transcript.value, shared.value));
    }
  }

  lemma Garbled()
    ensures Chatter(Frame(MessageType.Rekey, Unreadable(InvalidHandshake)))
  {
  }

  lemma RevealMutters(m: Machine, run: Run, f: Frame)
    requires m.run.None? && m.out == [] && run.step.Reveal? && run.purpose.Rekey? && RunValid(m.identity, m.active, run)
    ensures var s := StepReveal(m, run, f);
            Alike(s.machine, m) && s.machine.run.None? && Delivers(s.machine.out) == []
            && (forall g :: g in Sends(s.machine.out) ==> Chatter(g))
            && (s.result.Ok? ==> s.result.value.None? && s.run.role == run.role)
  {
    hide AfterHellos, DecodeHello, CheckRemoteHello, Talk, Questions, Events;
    assert Sends([]) == [] && Delivers([]) == [];
    if DecodeHello(f).Ok? {
      var word := HellosMutter(m, run, DecodeHello(f).value);
    }
  }

  lemma HelloMutters(m: Machine, run: Run, f: Frame)
    requires m.run.None? && m.out == [] && run.step.Hello? && run.purpose.Rekey? && RunValid(m.identity, m.active, run)
    ensures var s := StepHello(m, run, f);
            Alike(s.machine, m) && s.machine.run.None? && Delivers(s.machine.out) == []
            && (forall g :: g in Sends(s.machine.out) ==> Chatter(g))
            && (s.result.Ok? ==> s.result.value.None? && s.run.role == run.role)
  {
    hide AfterHellos, DecodeHello, CheckRemoteHello, Talk, Questions, Events;
    assert Sends([]) == [] && Delivers([]) == [];
    if DecodeHello(f).Ok? && run.localHelloFrame.Some? {
      var own := run.localHelloFrame.value;
      assert Chatter(own);
      var word := HellosMutter(Push(m, Send(own)), run.(localHelloFrame := None), DecodeHello(f).value);
    }
  }
}
