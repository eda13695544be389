/**
 * What becomes of two engines when a rekey times out on one of them: exactly the initiator that has
 * confirmed and gives up parts the sides.
 */
module Parting {
  import opened Protocol
  import opened Symbolic
  import opened Data
  import opened Machine
  import opened EngineInvariants
  import opened HonestSteps
  import opened InFlight
  import opened LocalSteps
  import opened TwoEngines
  import opened Stages
  import opened LocalStages
  import opened SystemRuns
  import opened Glare
  import opened Stragglers
  import opened Estrangement
  import Isolation = RekeyIsolation

  // ------------------------------------------------------------------ one established endpoint

  predicate Alive(e: Endpoint) {
    Valid(e.last) && e.engine == e.last && e.last.out == [] && e.last.phase.Open? && e.last.active.Some?
  }

  predicate SharesSession(a: Endpoint, b: Endpoint) {
    a.last.active.Some? && b.last.active.Some? && a.last.active.value.id == b.last.active.value.id
  }

  /** Reading a frame that neither ends the engine nor completes anything. */
  lemma ReadsOn(e: Endpoint, f: Frame)
    requires Alive(e) && OnFrame(e.last, f).phase.Open? && OnFrame(e.last, f).active.Some?
    ensures var r, e' := OnFrame(e.last, f), Applied(e, FrameReceived(f));
            Alive(e') && e'.last == r.(out := []) && e'.outbox == e.outbox + Sends(r.out) && e'.sent == e.sent
            && e'.delivered == e.delivered + Delivers(r.out)
  {
    hide OnFrame, Valid;
    assert e.last.(out := []) == e.last;
    assert Handle(e.last, FrameReceived(f)) == OnFrame(e.last, f);
    HandleKeeps(e.last, FrameReceived(f));
    ClearedValid(OnFrame(e.last, f));
    assert e.sent + [] == e.sent;
  }

  lemma PoppedAlive(e: Endpoint)
    requires Alive(e) && e.outbox != []
    ensures Alive(Popped(e))
  {
    hide Valid;
  }

  /** Genuine DATA moves a settled endpoint's sessions on and nothing else. */
  lemma ReadsData(e: Endpoint, f: Frame)
    requires Alive(e) && Settled(e.last) && HonestData(f)
    ensures var e' := Applied(e, FrameReceived(f));
            Alive(e') && e'.outbox == e.outbox && SharesSession(e, e') && e'.last.run == e.last.run
            && e'.last.blocked == e.last.blocked && e'.last.late == e.last.late && e'.last.identity == e.last.identity
            && e'.last.active.value.peer == e.last.active.value.peer
  {
    hide OnFrame, Valid, Opened, HonestData, Applied;
    DataStaysPut(e.last, f);
    ReadsOn(e, f);
    assert Sends([]) == [] && e.outbox + [] == e.outbox;
  }

  lemma InControl(chan: seq<Frame>)
    requires chan != []
    ensures Control(chan) == (if IsControl(chan[0]) then [chan[0]] else []) + Control(chan[1..])
    ensures Orderly(chan) ==> Orderly(chan[1..]) && (IsControl(chan[0]) || HonestData(chan[0]))
  {
    assert forall f :: f in chan[1..] ==> f in chan;
  }

  // ------------------------------------------------------------------ calm: whatever is said leads nowhere

  ghost predicate Murmuring(e: Endpoint) {
    Alive(e) && Settled(e.last) && Orderly(e.outbox) && forall f :: f in Control(e.outbox) ==> Chatter(f)
  }

  /** An initiator meets no responder and no countersignature. */
  predicate Unanswered(a: Endpoint, b: Endpoint) {
    a.last.run.Some? && a.last.run.value.role.Initiator? ==>
      b.last.run.None? && forall f :: f in Control(b.outbox) ==> !Countersigned(f)
  }

  ghost predicate Calm(a: Endpoint, b: Endpoint) {
    Murmuring(a) && Murmuring(b) && SharesSession(a, b) && Unanswered(a, b) && Unanswered(b, a)
  }

  lemma CalmReads(a: Endpoint, b: Endpoint)
    requires Calm(a, b) && a.outbox != []
    ensures Calm(Popped(a), Applied(b, FrameReceived(a.outbox[0])))
  {
    hide OnFrame, Valid, Applied, Chatter, Countersigned, HonestData;
    var f := a.outbox[0];
    InControl(a.outbox);
    PoppedAlive(a);
    if !IsControl(f) {
      ReadsData(b, f);
    } else {
      assert f in Control(a.outbox);
      MurmursOn(b, f);
      var r := OnFrame(b.last, f);
      SaidMore(b.outbox, Sends(r.out));
    }
  }

  lemma MurmursOn(b: Endpoint, f: Frame)
    requires Alive(b) && Settled(b.last) && Chatter(f)
    requires b.last.run.Some? && b.last.run.value.role.Initiator? ==> !Countersigned(f)
    ensures var r, b' := OnFrame(b.last, f), Applied(b, FrameReceived(f));
            Alive(b') && Settled(b'.last) && SharesSession(b, b') && b'.outbox == b.outbox + Sends(r.out)
            && (forall g :: g in Sends(r.out) ==> Chatter(g))
            && (b.last.run.None? ==> b'.last.run.None? && Sends(r.out) == [])
            && (b'.last.run.Some? ==> b.last.run.Some? && b'.last.run.value.role == b.last.run.value.role)
  {
    hide OnFrame, Valid, Applied, Chatter, Countersigned;
    assert Sends([]) == [];
    if b.last.run.None? {
      IdleDrops(b.last, f);
    } else {
      RunMutters(b.last, f);
    }
    ReadsOn(b, f);
  }

  lemma SaidMore(chan: seq<Frame>, more: seq<Frame>)
    requires Orderly(chan) && (forall f :: f in Control(chan) ==> Chatter(f)) && forall g :: g in more ==> Chatter(g)
    ensures Orderly(chan + more) && forall f :: f in Control(chan + more) ==> Chatter(f)
    ensures more == [] ==> chan + more == chan
  {
    hide HonestData;
    ControlAppend(chan, more);
    PlainControl(more);
  }

  // ------------------------------------------------------------------ two answers that cross

  /** `a` has answered an offer of `b`, who is still to read an offer of `a` that it must give way to. */
  ghost predicate Crossed(a: Endpoint, b: Endpoint, own: Half, offered: Half, answer: Frame) {
    Alive(a) && Alive(b) && SharesSession(a, b) && Orderly(a.outbox) && Orderly(b.outbox)
    && a.last.run.Some? && a.last.run.value.role.Responder?
    && b.last.run == Some(OfferRun(Purpose.Rekey, ActiveId(b.last), own))
    && b.last.identity <= b.last.active.value.peer
    && Control(b.outbox) == [] && Control(a.outbox) == [Commit(Purpose.Rekey, ActiveId(b.last), offered), answer]
    && Chatter(answer)
  }

  lemma CrossedAnswererReads(a: Endpoint, b: Endpoint, own: Half, offered: Half, answer: Frame)
    requires Crossed(a, b, own, offered, answer) && b.outbox != []
    ensures Crossed(Applied(a, FrameReceived(b.outbox[0])), Popped(b), own, offered, answer)
  {
    hide OnFrame, Valid, Applied, Chatter, HonestData, OfferRun, Commit;
    InControl(b.outbox);
    PoppedAlive(b);
    ReadsData(a, b.outbox[0]);
  }

  lemma CrossedOffererReads(a: Endpoint, b: Endpoint, own: Half, offered: Half, answer: Frame)
    requires Crossed(a, b, own, offered, answer) && a.outbox != []
    ensures var f, b' := a.outbox[0], Applied(b, FrameReceived(a.outbox[0]));
            if IsControl(f) then Calm(Popped(a), b') else Crossed(Popped(a), b', own, offered, answer)
  {
    hide OnFrame, Valid, Applied, Chatter, HonestData, OfferRun, Commit, AnswerRun, Answer, Countersigned;
    var f := a.outbox[0];
    InControl(a.outbox);
    PoppedAlive(a);
    if IsControl(f) {
      assert Control(a.outbox)[0] == f && Control(a.outbox)[1..] == Control(a.outbox[1..]);
      assert Control(Popped(a).outbox) == [answer];
      GivesWay(b, own, offered);
    } else {
      ReadsData(b, f);
    }
  }

  /** The lesser identity drops its own offer and answers. */
  lemma GivesWay(b: Endpoint, own: Half, offered: Half)
    requires Alive(b) && b.last.run == Some(OfferRun(Purpose.Rekey, ActiveId(b.last), own))
    requires b.last.identity <= b.last.active.value.peer && Control(b.outbox) == [] && Orderly(b.outbox)
    ensures var b' := Applied(b, FrameReceived(Commit(Purpose.Rekey, ActiveId(b.last), offered)));
            Murmuring(b') && SharesSession(b, b') && b'.last.run.Some? && b'.last.run.value.role.Responder?
  {
    hide OnFrame, Valid, Applied, Chatter, HonestData, OfferRun, Commit, Answer;
    var p := Pairing(Purpose.Rekey, ActiveId(b.last), offered, NextHalf(b.last));
    var f := Commit(Purpose.Rekey, ActiveId(b.last), offered);
    GlareLoses(b.last, own, offered);
    assert Sends([]) == [] && [] + [Answer(p)] == [Answer(p)];
    ReadsOn(b, f);
    HonestKinds(p);
    SaidMore(b.outbox, [Answer(p)]);
  }

  // ------------------------------------------------------------------ one side gave up, the other does not know

  /** `e` has given up the run that its double `t` goes on with; otherwise they are the same. */
  predicate Ghost(e: Endpoint, t: Endpoint) {
    Alive(e) && e.last.run.None? && e.last.blocked && e.last.late > 0
    && Party(t) && !Over(t) && t.last.run.Some? && Alike(e.last, t.last)
    && e.outbox == t.outbox && e.sent == t.sent && e.delivered == t.delivered
  }

  lemma BecomesGhost(e: Endpoint, id: nat)
    requires Party(e) && !Over(e) && e.last.phase.Open? && HandshakeTimeout(e.last, id)
    ensures Ghost(Applied(e, Timeout(id)), e)
  {
    hide Handle, Valid, Sound;
    GivesUp(e.last, id);
    HandleKeeps(e.last, Timeout(id));
    ClearedValid(Handle(e.last, Timeout(id)));
    OpenHasSession(e.last);
    assert e.outbox + [] == e.outbox && e.delivered + [] == e.delivered && e.sent + [] == e.sent;
  }

  lemma OpenHasSession(m: Machine)
    requires Valid(m) && m.phase.Open?
    ensures m.active.Some?
  {
    hide Tidy, TableOf, RunValid;
  }

  lemma PartyAlive(e: Endpoint)
    requires Party(e) && !Over(e) && e.last.phase.Open?
    ensures Alive(e)
  {
    hide Valid, Sound;
    OpenHasSession(e.last);
  }

  /** With DATA both do the same. */
  lemma GhostReadsData(e: Endpoint, t: Endpoint, f: Frame)
    requires Ghost(e, t) && HonestData(f) && Party(Applied(t, FrameReceived(f)))
    ensures var t' := Applied(t, FrameReceived(f));
            Ghost(Applied(e, FrameReceived(f)), t') && t'.last.run == t.last.run
  {
    hide OnFrame, Valid, Sound, Party, Applied, HonestData, Opened;
    var f' := FrameReceived(f);
    GhostDouble(e, t);
    DataAlike(e.last, t.last, f);
    DataStaysPut(e.last, f);
    DataStaysPut(t.last, f);
    ReadsOn(e, f);
    ReadsOn(t, f);
    assert Sends([]) == [] && e.outbox + [] == e.outbox && t.outbox + [] == t.outbox;
    AliveIsUp(Applied(t, f'));
  }

  lemma GhostDouble(e: Endpoint, t: Endpoint)
    requires Ghost(e, t)
    ensures Alive(t) && t.last.phase.Open?
  {
    hide Valid, Sound;
  }

  lemma AliveIsUp(e: Endpoint)
    requires Alive(e)
    ensures !Over(e)
  {
  }

  lemma PoppedGhost(e: Endpoint, t: Endpoint)
    requires Ghost(e, t) && e.outbox != []
    ensures Ghost(Popped(e), Popped(t))
  {
    hide Valid, Sound;
  }

  /** What belongs to the run that is no more is dropped. */
  lemma GhostDrops(e: Endpoint, t: Endpoint, f: Frame)
    requires Ghost(e, t) && (Chatter(f) || f.messageType.SessionConfirm?)
    ensures var e' := Applied(e, FrameReceived(f));
            Alive(e') && Alike(e'.last, e.last) && e'.last.run.None? && e'.last.blocked && e'.outbox == e.outbox
  {
    hide OnFrame, Valid, Sound, Party, Applied, Chatter;
    assert Sends([]) == [] && e.outbox + [] == e.outbox;
    IdleDrops(e.last, f);
    ReadsOn(e, f);
  }

  /** An offer it answers like any idle engine. */
  lemma GhostAnswers(e: Endpoint, t: Endpoint, h: Half)
    requires Ghost(e, t)
    ensures var p := Pairing(Purpose.Rekey, ActiveId(e.last), h, NextHalf(e.last));
            var e' := Applied(e, FrameReceived(Commit(Purpose.Rekey, ActiveId(e.last), h)));
            Alive(e') && Moves(e, e', Some(AnswerRun(p)), [Answer(p)])
  {
    hide OnFrame, Valid, Sound, Party, Applied, Answer, AnswerRun, Commit;
    var p := Pairing(Purpose.Rekey, ActiveId(e.last), h, NextHalf(e.last));
    AnswersRekey(e.last, h);
    assert Sends([]) == [] && Delivers([]) == [] && [] + [Answer(p)] == [Answer(p)];
    assert e.delivered + [] == e.delivered;
    ReadsOn(e, Commit(Purpose.Rekey, ActiveId(e.last), h));
    AliveIsUp(Applied(e, FrameReceived(Commit(Purpose.Rekey, ActiveId(e.last), h))));
  }

  // The initiator of the stage has given up.

  /** Everything in flight between two engines that are there is control or genuine. */
  lemma JointOrderly(x: Endpoint, y: Endpoint, g: Stage, xc: seq<seq<byte>>, yc: seq<seq<byte>>)
    requires Joint(x, y, g, xc, yc)
    ensures !Over(x) ==> Orderly(x.outbox)
    ensures !Over(y) ==> Orderly(y.outbox)
  {
    hide InStage, Good, Orderly;
    if !Over(x) {
      GoodOrderly(x.outbox, ViewOf(y.last), xc, TipOf(x, Lags(g)));
    }
    if !Over(y) {
      GoodOrderly(y.outbox, ViewOf(x.last), yc, TipOf(y, false));
    }
  }

  /** The initiator gave up before it was answered by a crossing offer of the responder. */
  lemma FirstMeetsOffer(e: Endpoint, x: Endpoint, y: Endpoint, g: Stage, xc: seq<seq<byte>>, yc: seq<seq<byte>>)
      returns (own: Half, offered: Half, answer: Frame)
    requires Ghost(e, x) && Joint(x, y, g, xc, yc) && Alive(y) && g.Glare? && y.outbox != [] && IsControl(y.outbox[0])
    ensures Crossed(Applied(e, FrameReceived(y.outbox[0])), Popped(y), own, offered, answer)
    ensures !x.last.run.value.step.ConfirmResp?
  {
    hide Valid, Sound, Party, Applied, OfferRun, Commit, Answer, AnswerRun, Link, Chatter, HonestData;
    JointOrderly(x, y, g, xc, yc);
    InControl(y.outbox);
    PoppedAlive(y);
    own, offered := g.loser, g.winner;
    OfferStep(Purpose.Rekey, Some(g.before), g.winner);
    GhostAnswers(e, x, own);
    var p := Pairing(Purpose.Rekey, ActiveId(e.last), own, NextHalf(e.last));
    answer := Answer(p);
    AnswersAsResponder(p);
    HonestKinds(p);
    ControlAppend(e.outbox, [answer]);
    PlainControl([answer]);
    OrderlyMore(e.outbox, answer);
    var e' := Applied(e, FrameReceived(y.outbox[0]));
    assert y.outbox[0] == Control(y.outbox)[0] == Commit(Purpose.Rekey, Some(g.before), own);
    assert Alive(e');
    assert e'.outbox == e.outbox + [answer];
    assert SharesSession(e', Popped(y));
    assert Control(y.outbox[1..]) == [];
    assert Control(e'.outbox) == [Commit(Purpose.Rekey, Some(g.before), offered), answer];
    assert y.last.identity <= y.last.active.value.peer;
    assert e'.last.run.Some?;
  }

  lemma OfferStep(purpose: Purpose, previous: Option<SessionId>, h: Half)
    ensures OfferRun(purpose, previous, h).step.Hello? && OfferRun(purpose, previous, h).role.Initiator?
  {
  }

  lemma AnswersAsResponder(p: Pairing)
    ensures AnswerRun(p).role.Responder? && AnswerRun(p).step.Reveal?
  {
  }

  lemma OrderlyMore(chan: seq<Frame>, f: Frame)
    requires Orderly(chan) && IsControl(f)
    ensures Orderly(chan + [f])
  {
    hide HonestData;
  }

  /** A leftover offer of the responder, once it has answered: now both are responders. */
  lemma FirstMeetsStaleOffer(e: Endpoint, x: Endpoint, y: Endpoint, g: Stage, xc: seq<seq<byte>>, yc: seq<seq<byte>>)
    requires Ghost(e, x) && Joint(x, y, g, xc, yc) && Alive(y) && g.Answered? && g.stale.Some? && g.p.purpose.Rekey?
    requires y.outbox != [] && IsControl(y.outbox[0])
    ensures Calm(Applied(e, FrameReceived(y.outbox[0])), Popped(y)) && !x.last.run.value.step.ConfirmResp?
  {
    hide Valid, Sound, Party, Applied, OfferRun, Commit, Answer, AnswerRun, Link, Chatter, HonestData, Countersigned;
    JointOrderly(x, y, g, xc, yc);
    InControl(y.outbox);
    PoppedAlive(y);
    OfferStep(g.p.purpose, g.p.previous, g.p.i);
    GhostAnswers(e, x, g.stale.value);
    var p := Pairing(Purpose.Rekey, ActiveId(e.last), g.stale.value, NextHalf(e.last));
    AnswersAsResponder(p);
    AnswersAsResponder(g.p);
    HonestKinds(p);
    HonestKinds(g.p);
    assert y.outbox[0] == Control(y.outbox)[0] == Commit(Purpose.Rekey, ActiveId(e.last), g.stale.value);
    assert Control(y.outbox[1..]) == Control(y.outbox)[1..] == [Answer(g.p)];
    assert Control(e.outbox) == [];
    SaidMore(e.outbox, [Answer(p)]);
  }

  /** What the responder said in answer goes unheard; it is a responder with nobody to go on with. */
  lemma FirstMeetsReply(e: Endpoint, x: Endpoint, y: Endpoint, g: Stage, xc: seq<seq<byte>>, yc: seq<seq<byte>>)
    requires Ghost(e, x) && Joint(x, y, g, xc, yc) && Alive(y)
    requires ((g.Answered? && g.stale.None?) || g.Signed?) && g.p.purpose.Rekey?
    requires y.outbox != [] && IsControl(y.outbox[0])
    ensures Calm(Applied(e, FrameReceived(y.outbox[0])), Popped(y)) && !x.last.run.value.step.ConfirmResp?
  {
    hide Valid, Sound, Party, Applied, OfferRun, Answer, SecondAuth, AnswerRun, InitiatorAt, ResponderAt, Link, Chatter,
      HonestData, Countersigned;
    JointOrderly(x, y, g, xc, yc);
    InControl(y.outbox);
    PoppedAlive(y);
    StepsOf(g.p, AuthResp, ConfirmInit);
    OfferStep(g.p.purpose, g.p.previous, g.p.i);
    AnswersAsResponder(g.p);
    HonestKinds(g.p);
    assert y.outbox[0] == Control(y.outbox)[0];
    assert Chatter(y.outbox[0]);
    assert Control(y.outbox[1..]) == [] && Control(e.outbox) == [];
    GhostDrops(e, x, y.outbox[0]);
  }

  lemma StepsOf(p: Pairing, initiating: Step, responding: Step)
    ensures InitiatorAt(p, initiating).step == initiating && InitiatorAt(p, initiating).role.Initiator?
    ensures ResponderAt(p, responding, None).step == responding && ResponderAt(p, responding, None).role.Responder?
  {
  }

  /** The responder's confirmation comes too late: the sides are on different sessions. */
  lemma FirstMeetsConfirmation(e: Endpoint, x: Endpoint, y: Endpoint, g: Stage, xc: seq<seq<byte>>, yc: seq<seq<byte>>)
    requires Ghost(e, x) && Joint(x, y, g, xc, yc) && Alive(y) && g.Promoted?
    requires y.outbox != [] && IsControl(y.outbox[0])
    ensures Apart(Applied(e, FrameReceived(y.outbox[0])), Popped(y)) && x.last.run.value.step.ConfirmResp?
  {
    hide Valid, Sound, Party, Applied, OfferRun, Commit, ConfirmFrom, InitiatorAt, KeysFor, NewSession, Link, Chatter,
      HonestData, BuildsOn;
    JointOrderly(x, y, g, xc, yc);
    InControl(y.outbox);
    PoppedAlive(y);
    StepsOf(g.p, ConfirmResp, ConfirmInit);
    PlainFrames(g.p, g.p.purpose, g.p.previous, g.p.i);
    assert y.outbox[0] == Control(y.outbox)[0] == ConfirmFrom(g.p, Responder);
    assert Control(y.outbox[1..]) == Control(y.outbox)[1..];
    GhostDrops(e, x, y.outbox[0]);
    assert Control(e.outbox) == [];
    FreshId(g.p);
    var e', y' := Applied(e, FrameReceived(y.outbox[0])), Popped(y);
    StrangerOf(e', None);
    if g.next.Some? {
      OfferStep(Purpose.Rekey, ActiveId(y.last), g.next.value);
    }
    StrangerOf(y', g.next);
  }

  /** Strangers that only send DATA and offers. */
  ghost predicate Apart(a: Endpoint, b: Endpoint) {
    Stranger(a) && Stranger(b) && Alive(a) && Alive(b) && !SharesSession(a, b)
    && Courteous(a.outbox) && Courteous(b.outbox)
  }

  lemma StrangerOf(e: Endpoint, offer: Option<Half>)
    requires Alive(e) && Orderly(e.outbox) && Aloof(e.last)
    requires Control(e.outbox) == if offer.Some? then [Commit(Purpose.Rekey, ActiveId(e.last), offer.value)] else []
    ensures Stranger(e) && Courteous(e.outbox)
  {
    hide Valid, Aloof, HonestData;
    forall f | f in e.outbox
      ensures BuildsOn(f, e.last.active.value.id) && (HonestData(f) || f.messageType.Rekey?)
    {
      if IsControl(f) {
        IsInControl(e.outbox, f);
        OfferDecodes(Purpose.Rekey, ActiveId(e.last), offer.value);
      } else {
        HonestIsData(f);
      }
    }
  }

  lemma {:induction false} IsInControl(chan: seq<Frame>, f: Frame)
    requires f in chan && IsControl(f)
    ensures f in Control(chan)
  {
    if f != chan[0] {
      IsInControl(chan[1..], f);
    }
  }

  // The responder of the stage has given up.

  /** It answers the winner's offer as if it had lost the glare: the handshake goes on. */
  lemma SecondMeetsOffer(x: Endpoint, e: Endpoint, y: Endpoint, g: Stage, xc: seq<seq<byte>>, yc: seq<seq<byte>>)
      returns (g': Stage)
    requires Ghost(e, y) && Joint(x, y, g, xc, yc) && g.Glare? && x.outbox != [] && IsControl(x.outbox[0])
    ensures x.outbox[0] == Commit(Purpose.Rekey, ActiveId(e.last), g.winner)
    ensures Joint(Popped(x), Applied(e, FrameReceived(x.outbox[0])), g', xc, yc)
    ensures Alive(Applied(e, FrameReceived(x.outbox[0]))) && !y.last.run.value.step.ConfirmResp?
  {
    hide Valid, Sound, Party, Applied, OfferRun, Commit, Answer, AnswerRun, Link, Becomes, OnFrame;
    OfferStep(Purpose.Rekey, Some(g.before), g.loser);
    HeadOfControl(x.outbox);
    var f := x.outbox[0];
    assert f == Commit(Purpose.Rekey, ActiveId(e.last), g.winner);
    GhostAnswers(e, y, g.winner);
    var p := Pairing(Purpose.Rekey, ActiveId(y.last), g.winner, NextHalf(y.last));
    GlareLoses(y.last, g.loser, g.winner);
    ReadMoves(y, f, Some(AnswerRun(p)), [Answer(p)], []);
    g' := LoserHears(x, y, g, xc, yc);
    var e', y' := Applied(e, FrameReceived(f)), Applied(y, FrameReceived(f));
    SameDraws(e.last, y.last, g.loser, g.winner);
    GhostDouble(e, y);
    ReadDraws(e, f);
    ReadDraws(y, f);
    SameMove(e, y, e', y', AnswerRun(p), [Answer(p)]);
    SecondIdles(Popped(x), y', e', g', xc, yc);
  }

  lemma ReadDraws(e: Endpoint, f: Frame)
    requires e.engine == e.last && e.last.out == [] && !Over(e) && !Over(Applied(e, FrameReceived(f)))
    ensures Applied(e, FrameReceived(f)).last.draws == OnFrame(e.last, f).draws
  {
    hide OnFrame;
    assert e.last.(out := []) == e.last;
  }

  /** Answering takes two draws, in a glare or not. */
  lemma SameDraws(m: Machine, t: Machine, own: Half, offered: Half)
    requires Alike(m, t) && m.phase.Open? && m.active.Some? && m.run.None?
    requires t.run == Some(OfferRun(Purpose.Rekey, ActiveId(t), own)) && t.identity <= t.active.value.peer
    ensures var f := Commit(Purpose.Rekey, ActiveId(m), offered);
            OnFrame(m, f).draws == OnFrame(t, f).draws
  {
    hide DecodeCommit, StartResponderRun, DriveRun, FailRekey, CompleteRekey, NoteRekeyRejection, Cancel, Terminate;
    OfferDecodes(Purpose.Rekey, ActiveId(m), offered);
    var commit := CommitOf(Purpose.Rekey, ActiveId(m), offered);
    AnswerDraws(m.(late := 0, rejections := 0), commit, true);
    AnswerDraws(Disarmed(t.(run := None)).(rejections := 0), commit, false);
  }

  lemma AnswerDraws(m: Machine, commit: CommitPayload, announce: bool)
    requires commit.cipherSuite == 1 && PurposeMatchesPrevious(commit.purpose, commit.previous.Some?)
    ensures StartResponderRun(m, commit, announce).1.Ok?
    ensures StartResponderRun(m, commit, announce).0.draws == m.draws + 2
  {
    hide RearmFrameDeadline, Arm, Sends, Delivers, Events, Talk, Questions;
  }

  /** Two moves from the same state to the same run. */
  lemma SameMove(e: Endpoint, t: Endpoint, e': Endpoint, t': Endpoint, run: Run, sends: seq<Frame>)
    requires Ghost(e, t) && Moves(e, e', Some(run), sends) && Moves(t, t', Some(run), sends)
    requires e'.last.draws >= t'.last.draws
    ensures SameCore(t', e')
  {
    hide Valid, Sound, Party;
    assert t'.outbox + [] == t'.outbox;
  }

  /** What the initiator goes on to say goes unheard; nobody will answer it. */
  lemma SecondMeetsMore(x: Endpoint, e: Endpoint, y: Endpoint, g: Stage, xc: seq<seq<byte>>, yc: seq<seq<byte>>)
    requires Ghost(e, y) && Joint(x, y, g, xc, yc) && Alive(x)
    requires (g.Revealed? || g.Shared? || g.Confirmed?) && g.p.purpose.Rekey?
    requires x.outbox != [] && IsControl(x.outbox[0])
    ensures Calm(Popped(x), Applied(e, FrameReceived(x.outbox[0]))) && !y.last.run.value.step.ConfirmResp?
  {
    hide Valid, Sound, Party, Applied, RevealFrame, FirstAuth, ConfirmFrom, AnswerRun, InitiatorAt, ResponderAt, Link,
      Chatter, HonestData, Countersigned;
    JointOrderly(x, y, g, xc, yc);
    InControl(x.outbox);
    PoppedAlive(x);
    StepsOf(g.p, AuthResp, AuthInit);
    StepsOf(g.p, ConfirmResp, ConfirmInit);
    AnswersAsResponder(g.p);
    HonestKinds(g.p);
    PlainFrames(g.p, g.p.purpose, g.p.previous, g.p.i);
    assert x.outbox[0] == Control(x.outbox)[0];
    assert Control(x.outbox[1..]) == Control(x.outbox)[1..] && Control(e.outbox) == [];
    GhostDrops(e, y, x.outbox[0]);
  }

  // ------------------------------------------------------------------ what a system can come to

  /** Where two engines stand after a rekey timeout on one of them, with nothing but deliveries since. */
  datatype Account =
    | Joined(w: Witness)
    | Ghosted(quitter: Side, double: Endpoint, w: Witness)
    | Crossing(answerer: Side, own: Half, offered: Half, answer: Frame)
    | Calmed
    | Parted

  /** `doomed` says that it was the initiator's, after it had confirmed. */
  ghost predicate Accounted(s: System, a: Account, doomed: bool) {
    match a
    case Joined(w) => !doomed && Holds(s, w) && Alive(s.dialer) && Alive(s.listener)
    case Ghosted(q, t, w) =>
      Holds(Put(s, q, t), w) && Ghost(Get(s, q), t) && !Over(Get(s, Other(q)))
      && doomed == t.last.run.value.step.ConfirmResp?
    case Crossing(q, own, offered, answer) => !doomed && Crossed(Get(s, q), Get(s, Other(q)), own, offered, answer)
    case Calmed => !doomed && Calm(s.dialer, s.listener)
    case Parted => doomed && Apart(s.dialer, s.listener)
  }

  lemma CalmSwap(a: Endpoint, b: Endpoint)
    requires Calm(a, b)
    ensures Calm(b, a)
  {
    hide Valid, HonestData, Chatter;
  }

  lemma ApartSwap(a: Endpoint, b: Endpoint)
    requires Apart(a, b)
    ensures Apart(b, a)
  {
    hide Valid, HonestData, BuildsOn, Aloof;
  }

  lemma CalmStep(s: System, to: Side)
    requires Calm(s.dialer, s.listener) && Possible(s, Action.Deliver(to))
    ensures var t := StepSystem(s, Action.Deliver(to));
            Calm(t.dialer, t.listener)
  {
    hide Calm, Applied;
    CalmSwap(s.dialer, s.listener);
    CalmReads(Get(s, Other(to)), Get(s, to));
    var t := StepSystem(s, Action.Deliver(to));
    CalmSwap(Get(t, Other(to)), Get(t, to));
  }

  lemma CrossingStep(s: System, to: Side, q: Side, own: Half, offered: Half, answer: Frame) returns (a: Account)
    requires Crossed(Get(s, q), Get(s, Other(q)), own, offered, answer) && Possible(s, Action.Deliver(to))
    ensures Accounted(StepSystem(s, Action.Deliver(to)), a, false)
  {
    hide Calm, Crossed, Applied, Alive, Ghost, Holds;
    var t := StepSystem(s, Action.Deliver(to));
    if to == q {
      CrossedAnswererReads(Get(s, q), Get(s, Other(q)), own, offered, answer);
      a := Crossing(q, own, offered, answer);
    } else {
      CrossedOffererReads(Get(s, q), Get(s, Other(q)), own, offered, answer);
      if IsControl(Get(s, q).outbox[0]) {
        CalmSwap(Get(t, q), Get(t, Other(q)));
        a := Calmed;
      } else {
        a := Crossing(q, own, offered, answer);
      }
    }
  }

  /** Strangers only drop what they read, and stay. */
  lemma ApartReads(a: Endpoint, b: Endpoint)
    requires Apart(a, b) && a.outbox != []
    ensures Apart(Popped(a), Applied(b, FrameReceived(a.outbox[0])))
  {
    hide Valid, Aloof, BuildsOn, OnFrame, Handle, HonestData, Foreign, Applied;
    var f := a.outbox[0];
    assert f in a.outbox && forall g :: g in a.outbox[1..] ==> g in a.outbox;
    PoppedAlive(a);
    HeadIsForeign(a, b.last.active.value.id);
    StrangerActs(b, FrameReceived(f));
    StaysOpen(b, f);
  }

  lemma StaysOpen(e: Endpoint, f: Frame)
    requires Alive(e) && Stranger(e) && Foreign(f, e.last.active.value.id) && (HonestData(f) || f.messageType.Rekey?)
    ensures Alive(Applied(e, FrameReceived(f)))
  {
    hide Valid, Handle, Aloof, BuildsOn, HonestData, Foreign;
    var m := e.last;
    HandleKeeps(m, FrameReceived(f));
    ClearedValid(Handle(m, FrameReceived(f)));
    if f.messageType.Rekey? {
      Isolation.RekeyIsIsolated(m, FrameReceived(f));
    } else {
      HonestIsData(f);
      DataKeepsAloof(m, f);
      OpenReadsData(m, f);
    }
    OpenHasSession(Handle(m, FrameReceived(f)));
  }

  lemma OpenReadsData(m: Machine, f: Frame)
    requires m.phase.Open? && f.messageType.Data? && m.out == []
    ensures Handle(m, FrameReceived(f)) == OnData(m, f)
  {
    hide OnData;
    assert m.(out := []) == m;
  }

  lemma ApartStep(s: System, to: Side)
    requires Apart(s.dialer, s.listener) && Possible(s, Action.Deliver(to))
    ensures var t := StepSystem(s, Action.Deliver(to));
            Apart(t.dialer, t.listener)
  {
    hide Apart, Applied;
    ApartSwap(s.dialer, s.listener);
    ApartReads(Get(s, Other(to)), Get(s, to));
    var t := StepSystem(s, Action.Deliver(to));
    ApartSwap(Get(t, Other(to)), Get(t, to));
  }

  // Steps while one side is a ghost or has come back.

  lemma HoldsOrderly(s: System, w: Witness, side: Side)
    requires Holds(s, w) && !Over(Get(s, side))
    ensures Orderly(Get(s, side).outbox)
  {
    hide Joint, Party, Orderly;
    JointOrderly(Get(s, w.first), Get(s, Other(w.first)), w.g, w.xc, w.yc);
  }

  lemma OrderlyHead(chan: seq<Frame>)
    requires Orderly(chan) && chan != []
    ensures IsControl(chan[0]) || HonestData(chan[0])
    ensures !chan[0].messageType.Close?
  {
    hide HonestData;
    if !IsControl(chan[0]) {
      HonestIsData(chan[0]);
    }
  }

  /** Two engines of the joint invariant that are both established go on like that. */
  lemma JoinedStep(s: System, w: Witness, to: Side) returns (w': Witness)
    requires Holds(s, w) && Alive(s.dialer) && Alive(s.listener) && Possible(s, Action.Deliver(to))
    ensures var t := StepSystem(s, Action.Deliver(to));
            Holds(t, w') && Alive(t.dialer) && Alive(t.listener)
  {
    hide Holds, Alive, Applied, Orderly, HonestData;
    var from, e := Get(s, Other(to)), Get(s, to);
    AliveIsUp(from);
    AliveIsUp(e);
    HoldsOrderly(s, w, Other(to));
    OrderlyHead(from.outbox);
    w' := StepHolds(s, Action.Deliver(to), w);
    var t := StepSystem(s, Action.Deliver(to));
    HoldsParty(t, w', to);
    OpenStays(e, from.outbox[0]);
    PartyAlive(Get(t, to));
    PoppedAlive(from);
  }

  lemma HoldsParty(s: System, w: Witness, side: Side)
    requires Holds(s, w)
    ensures Party(Get(s, side))
  {
    hide Joint, Party;
  }

  lemma OpenStays(e: Endpoint, f: Frame)
    requires Alive(e)
    ensures !Over(Applied(e, FrameReceived(f))) ==> Applied(e, FrameReceived(f)).last.phase.Open?
  {
    hide Valid, Handle;
    Isolation.RekeyIsIsolated(e.last, FrameReceived(f));
  }

  /** What the stages say about an established side with a run. */
  lemma StageOfRekey(x: Endpoint, y: Endpoint, g: Stage, xc: seq<seq<byte>>, yc: seq<seq<byte>>)
    requires Joint(x, y, g, xc, yc)
    ensures x.last.phase.Open? && (g.Glare? || g.Answered? || g.Signed? || g.Promoted?) ==> y.last.phase.Open?
    ensures x.last.phase.Open? && (g.Answered? || g.Signed?) ==> g.p.purpose.Rekey?
    ensures y.last.phase.Open? && (g.Glare? || g.Revealed? || g.Shared? || g.Confirmed?) ==> x.last.phase.Open?
    ensures y.last.phase.Open? && (g.Revealed? || g.Shared? || g.Confirmed?) ==> g.p.purpose.Rekey?
    ensures g.Offered? ==> y.last.run.None?
  {
    hide Link, OfferRun, Commit, Answer, AnswerRun, InitiatorAt, ResponderAt, KeysFor, ConfirmFrom;
  }

  /** The ghost of the stage's initiator reads a control frame. */
  lemma FirstGhostReads(s: System, q: Side, t: Endpoint, w: Witness) returns (a: Account)
    requires Holds(Put(s, q, t), w) && Ghost(Get(s, q), t) && !Over(Get(s, Other(q))) && w.first == q
    requires Get(s, Other(q)).outbox != [] && IsControl(Get(s, Other(q)).outbox[0])
    ensures Accounted(StepSystem(s, Action.Deliver(q)), a, t.last.run.value.step.ConfirmResp?)
  {
    hide Joint, Party, Applied, Ghost, Calm, Crossed, Apart, Alive;
    var e, o := Get(s, q), Get(s, Other(q));
    GhostDouble(e, t);
    GhostParty(e, t);
    UnreadByInitiator(t, o, w.g, w.xc, w.yc);
    StageOfRekey(t, o, w.g, w.xc, w.yc);
    PartyAlive(o);
    var r := StepSystem(s, Action.Deliver(q));
    if w.g.Glare? {
      var own, offered, answer := FirstMeetsOffer(e, t, o, w.g, w.xc, w.yc);
      a := Crossing(q, own, offered, answer);
    } else if w.g.Promoted? {
      FirstMeetsConfirmation(e, t, o, w.g, w.xc, w.yc);
      ApartSwap(Get(r, q), Get(r, Other(q)));
      a := Parted;
    } else {
      if w.g.Answered? && w.g.stale.Some? {
        FirstMeetsStaleOffer(e, t, o, w.g, w.xc, w.yc);
      } else {
        FirstMeetsReply(e, t, o, w.g, w.xc, w.yc);
      }
      CalmSwap(Get(r, q), Get(r, Other(q)));
      a := Calmed;
    }
  }

  lemma GhostParty(e: Endpoint, t: Endpoint)
    requires Ghost(e, t)
    ensures Party(t) && !Over(t) && !Over(e) && t.last.run.Some? && e.outbox == t.outbox && Sound(e.last)
  {
    hide Valid;
  }

  /** The ghost of the stage's responder reads a control frame. */
  lemma SecondGhostReads(s: System, q: Side, t: Endpoint, w: Witness) returns (a: Account)
    requires Holds(Put(s, q, t), w) && Ghost(Get(s, q), t) && !Over(Get(s, Other(q))) && w.first != q
    requires Get(s, Other(q)).outbox != [] && IsControl(Get(s, Other(q)).outbox[0])
    ensures Accounted(StepSystem(s, Action.Deliver(q)), a, t.last.run.value.step.ConfirmResp?)
  {
    hide Joint, Party, Applied, Ghost, Calm, Crossed, Apart, Alive;
    var e, o := Get(s, q), Get(s, Other(q));
    GhostDouble(e, t);
    GhostParty(e, t);
    UnreadByResponder(o, t, w.g, w.xc, w.yc);
    StageOfRekey(o, t, w.g, w.xc, w.yc);
    PartyAlive(o);
    PoppedAlive(o);
    PoppedParty(o);
    var r := StepSystem(s, Action.Deliver(q));
    if w.g.Glare? {
      var g' := SecondMeetsOffer(o, e, t, w.g, w.xc, w.yc);
      GhostStaysParty(e, t, o.outbox[0], w.g.winner);
      a := Joined(Witness(w.first, g', w.xc, w.yc));
    } else {
      SecondMeetsMore(o, e, t, w.g, w.xc, w.yc);
      CalmSwap(Get(r, Other(q)), Get(r, q));
      a := Calmed;
    }
  }

  lemma GhostStaysParty(e: Endpoint, t: Endpoint, f: Frame, h: Half)
    requires Ghost(e, t) && Alive(Applied(e, FrameReceived(f)))
    requires f == Commit(Purpose.Rekey, ActiveId(e.last), h)
    ensures Party(Applied(e, FrameReceived(f)))
  {
    hide Valid, Sound, OnFrame, Applied, Answer, AnswerRun, Commit;
    GhostParty(e, t);
    GhostAnswers(e, t, h);
    var p := Pairing(Purpose.Rekey, ActiveId(e.last), h, NextHalf(e.last));
    SoundMoves(e, Applied(e, FrameReceived(f)), Some(AnswerRun(p)), [Answer(p)]);
  }

  /** One delivery while one side is a ghost. */
  lemma GhostStep(s: System, q: Side, t: Endpoint, w: Witness, to: Side) returns (a: Account)
    requires Holds(Put(s, q, t), w) && Ghost(Get(s, q), t) && !Over(Get(s, Other(q)))
    requires Possible(s, Action.Deliver(to))
    ensures Accounted(StepSystem(s, Action.Deliver(to)), a, t.last.run.value.step.ConfirmResp?)
  {
    hide Holds, Party, Applied, Ghost, Alive, Orderly, HonestData;
    var s0, e, o := Put(s, q, t), Get(s, q), Get(s, Other(q));
    GhostParty(e, t);
    HoldsOrderly(s0, w, q);
    HoldsOrderly(s0, w, Other(q));
    if to != q {
      OrderlyHead(t.outbox);
      var w' := StepHolds(s0, Action.Deliver(to), w);
      PoppedGhost(e, t);
      a := Ghosted(q, Popped(t), w');
      assert Put(StepSystem(s, Action.Deliver(to)), q, Popped(t)) == StepSystem(s0, Action.Deliver(to));
    } else {
      OrderlyHead(o.outbox);
      if IsControl(o.outbox[0]) {
        if w.first == q {
          a := FirstGhostReads(s, q, t, w);
        } else {
          a := SecondGhostReads(s, q, t, w);
        }
      } else {
        var w' := StepHolds(s0, Action.Deliver(to), w);
        var t' := Applied(t, FrameReceived(o.outbox[0]));
        assert Put(StepSystem(s, Action.Deliver(to)), q, t') == StepSystem(s0, Action.Deliver(to));
        HoldsParty(StepSystem(s0, Action.Deliver(to)), w', q);
        GhostReadsData(e, t, o.outbox[0]);
        a := Ghosted(q, t', w');
      }
    }
  }

  /** Every delivery keeps the account, and with it what will come of it. */
  lemma AccountStep(s: System, a: Account, doomed: bool, to: Side) returns (a': Account)
    requires Accounted(s, a, doomed) && Possible(s, Action.Deliver(to))
    ensures Accounted(StepSystem(s, Action.Deliver(to)), a', doomed)
  {
    hide Holds, Applied, Ghost, Alive, Calm, Crossed, Apart, Possible;
    match a {
      case Joined(w) =>
        var w' := JoinedStep(s, w, to);
        a' := Joined(w');
      case Ghosted(q, t, w) => a' := GhostStep(s, q, t, w, to);
      case Crossing(q, own, offered, answer) => a' := CrossingStep(s, to, q, own, offered, answer);
      case Calmed =>
        CalmStep(s, to);
        a' := Calmed;
      case Parted =>
        ApartStep(s, to);
        a' := Parted;
    }
  }

  // ------------------------------------------------------------------ main result

  /** While an established side pursues a run there is something to read. */
  lemma StageSpeaks(x: Endpoint, y: Endpoint, g: Stage, xc: seq<seq<byte>>, yc: seq<seq<byte>>)
    requires Joint(x, y, g, xc, yc)
    requires (x.last.phase.Open? && x.last.run.Some?) || (y.last.phase.Open? && y.last.run.Some?)
    ensures x.outbox != [] || y.outbox != []
  {
    hide Link, OfferRun, Commit, Answer, AnswerRun, InitiatorAt, ResponderAt, KeysFor, ConfirmFrom;
    assert Control([]) == [];
  }

  lemma GhostWaits(s: System, q: Side, t: Endpoint, w: Witness)
    requires Holds(Put(s, q, t), w) && Ghost(Get(s, q), t)
    ensures s.dialer.outbox != [] || s.listener.outbox != []
  {
    hide Joint, Party, Valid;
    var s0 := Put(s, q, t);
    GhostDouble(Get(s, q), t);
    StageSpeaks(Get(s0, w.first), Get(s0, Other(w.first)), w.g, w.xc, w.yc);
  }

  lemma AccountUp(s: System, a: Account, doomed: bool)
    requires Accounted(s, a, doomed)
    ensures !Over(s.dialer) && !Over(s.listener)
  {
    hide Valid, Sound, Joint, HonestData, Chatter;
  }

  predicate Quieted(s: System) {
    s.dialer.outbox == [] && s.listener.outbox == []
  }

  /** Once nothing is in flight. */
  lemma AccountSettled(s: System, a: Account, doomed: bool)
    requires Accounted(s, a, doomed) && Quieted(s)
    ensures s.dialer.engine.phase.Open? && s.listener.engine.phase.Open?
    ensures OneSession(s) <==> !doomed
    ensures doomed ==> Strangers(s)
  {
    hide Valid, Holds, Ghost, HonestData, Chatter, OnKeys, BuildsOn, Aloof;
    match a {
      case Joined(w) => HeldAgreement(s, w);
      case Ghosted(q, t, w) => GhostWaits(s, q, t, w);
      case _ =>
    }
  }

  /**
   * A run without handshake timeouts, then one that fires for the rekey of an established side while the
   * other is there, and after that deliveries only.
   */
  ghost predicate OneTimeout(states: seq<System>, actions: seq<Action>, later: seq<System>, more: seq<Action>,
      side: Side, id: nat)
  {
    SystemRun(states, actions) && FreeRun(later, more) && later[0] == states[|actions|]
    && more != [] && more[0] == Act(side, Timeout(id)) && OnlyDeliveries(more, 1)
    && !Over(later[0].dialer) && !Over(later[0].listener)
    && Get(later[0], side).engine.phase.Open? && HandshakeTimeout(Get(later[0], side).engine, id)
  }

  lemma {:induction false} AccountOf(states: seq<System>, actions: seq<Action>, later: seq<System>, more: seq<Action>,
      side: Side, id: nat, n: nat)
      returns (a: Account)
    requires OneTimeout(states, actions, later, more, side, id) && 1 <= n <= |more|
    ensures var e := Get(later[0], side).engine;
            e.run.Some? && (e.run.value.step.ConfirmResp? ==> e.run.value.role.Initiator?)
            && Accounted(later[n], a, e.run.value.step.ConfirmResp?)
    decreases n
  {
    hide Accounted, StepSystem, Holds;
    if n == 1 {
      var w := RunHolds(states, actions, |actions|);
      assert Can(later[0], more[0], later[1]);
      a := FirstAccount(later[0], w, side, id);
    } else {
      var a0 := AccountOf(states, actions, later, more, side, id, n - 1);
      assert Can(later[n - 1], more[n - 1], later[n]);
      a := AccountStep(later[n - 1], a0, Get(later[0], side).engine.run.value.step.ConfirmResp?, more[n - 1].to);
    }
  }

  lemma FirstAccount(s: System, w: Witness, side: Side, id: nat) returns (a: Account)
    requires Holds(s, w) && !Over(s.dialer) && !Over(s.listener)
    requires Get(s, side).engine.phase.Open? && HandshakeTimeout(Get(s, side).engine, id)
    ensures var e := Get(s, side).engine;
            e.run.Some? && (e.run.value.step.ConfirmResp? ==> e.run.value.role.Initiator?)
            && Accounted(StepSystem(s, Act(side, Timeout(id))), a, e.run.value.step.ConfirmResp?)
  {
    hide Joint, Valid, Sound, Applied, Ghost;
    var e := Get(s, side);
    HoldsParty(s, w, side);
    BecomesGhost(e, id);
    ConfirmsAsInitiator(e.last, id);
    a := Ghosted(side, e, w);
    assert Put(StepSystem(s, Act(side, Timeout(id))), side, e) == s;
  }

  lemma ConfirmsAsInitiator(m: Machine, id: nat)
    requires Valid(m) && m.phase.Open? && HandshakeTimeout(m, id)
    ensures m.run.Some? && (m.run.value.step.ConfirmResp? ==> m.run.value.role.Initiator?)
  {
    hide Tidy, TableOf;
    RunIsArmed(m, id);
  }

  /**
   * When a rekey timeout parts the sides: after a HandshakeFrame or HandshakeTotal timeout of either side, at
   * any moment of any run, and once everything in flight has been read, in whatever order, both sides are
   * still established; and they are on one session if and only if it was not the initiator's timeout after it
   * had confirmed. Nobody ends meanwhile, so what is in flight can always be read.
   */
  lemma TimeoutParts(states: seq<System>, actions: seq<Action>, later: seq<System>, more: seq<Action>, side: Side,
      id: nat)
    requires OneTimeout(states, actions, later, more, side, id)
    ensures Get(later[0], side).engine.run.Some? && !Over(later[|more|].dialer) && !Over(later[|more|].listener)
    ensures var run := Get(later[0], side).engine.run.value;
            (run.step.ConfirmResp? ==> run.role.Initiator?)
            && (Quieted(later[|more|]) ==>
                  later[|more|].dialer.engine.phase.Open? && later[|more|].listener.engine.phase.Open?
                  && (OneSession(later[|more|]) <==> !run.step.ConfirmResp?))
  {
    hide Accounted, OneSession, Quieted;
    var a := AccountOf(states, actions, later, more, side, id, |more|);
    var doomed := Get(later[0], side).engine.run.value.step.ConfirmResp?;
    AccountUp(later[|more|], a, doomed);
    if Quieted(later[|more|]) {
      AccountSettled(later[|more|], a, doomed);
    }
  }

  /** Sides that have parted stay so, whatever they are asked to do and whichever timeouts fire. */
  lemma PartedForGood(states: seq<System>, actions: seq<Action>, later: seq<System>, more: seq<Action>, side: Side,
      id: nat, after: seq<System>, rest: seq<Action>, n: nat)
    requires OneTimeout(states, actions, later, more, side, id) && Quieted(later[|more|])
    requires Get(later[0], side).engine.run.Some? && Get(later[0], side).engine.run.value.step.ConfirmResp?
    requires FreeRun(after, rest) && after[0] == later[|more|] && n <= |rest|
    ensures !OneSession(after[n])
  {
    hide Accounted, OneSession, Quieted, Strangers;
    var a := AccountOf(states, actions, later, more, side, id, |more|);
    AccountSettled(later[|more|], a, true);
    NeverAgain(after, rest, n);
  }
}
