/** How each frame of a handshake between two honest engines takes the joint state to its next stage. */
module Stages {
  import opened Protocol
  import opened Symbolic
  import opened Data
  import opened Machine
  import opened EngineInvariants
  import opened HonestSteps
  import opened InFlight
  import opened LocalSteps
  import opened TwoEngines

  /** The endpoint may read the control frame at the head of the other's channel. */
  predicate Reads(from: Endpoint, to: Endpoint) {
    Party(to) && !Over(to) && from.outbox != [] && IsControl(from.outbox[0])
  }

  function After(from: Endpoint, to: Endpoint): Endpoint
    requires from.outbox != []
  {
    Applied(to, FrameReceived(from.outbox[0]))
  }

  lemma HeadOfControl(chan: seq<Frame>)
    requires chan != [] && IsControl(chan[0])
    ensures Control(chan) != [] && Control(chan)[0] == chan[0]
  {
  }

  /** The sessions of a reader are as they were, or a new one is in place and the active one drains. */
  ghost predicate Kept(e: Endpoint, e': Endpoint) {
    !Over(e') && e'.last.identity == e.last.identity
    && ((e'.last.phase == e.last.phase && e'.last.active == e.last.active && e'.last.draining == e.last.draining)
        || (e'.last.phase.Open? && e'.last.draining == e.last.active
            && exists keys, role, peer :: e'.last.active == Some(NewSession(keys, role, peer))))
  }

  /** Channels that hold nothing but plain frames hold no confirmation. */
  lemma PlainHasNoConfirm(chan: seq<Frame>)
    requires Plain(Control(chan))
    ensures NoConfirm(chan)
  {
  }

  // ------------------------------------------------------------------ frames the responder reads

  lemma HearsOffer(x: Endpoint, y: Endpoint, g: Stage, xc: seq<seq<byte>>, yc: seq<seq<byte>>) returns (g': Stage)
    requires Joint(x, y, g, xc, yc) && g.Offered? && Reads(x, y)
    ensures Kept(y, After(x, y))
    ensures var y' := After(x, y);
            g' == Answered(Pairing(g.purpose, g.previous, g.i, NextHalf(y.last)), None)
                && Joint(Popped(x), y', g', xc, yc)
            && y'.log == y.log + if g.purpose.Rekey? then [RekeyStarted] else []
  {
    hide Link, Applied, OnFrame, Party, Valid, Sound, OfferRun, Commit, Answer, AnswerRun, Becomes, Moves;
    var p := Pairing(g.purpose, g.previous, g.i, NextHalf(y.last));
    g' := Answered(p, None);
    HeadOfControl(x.outbox);
    PlainFrames(p, g.purpose, g.previous, g.i);
    PlainHasNoConfirm(x.outbox);
    if g.purpose.Initial? {
      AnswersFirst(y.last, g.i);
      ReadMoves(y, x.outbox[0], Some(AnswerRun(p)), [Answer(p)], []);
    } else {
      AnswersRekey(y.last, g.i);
      ReadMoves(y, x.outbox[0], Some(AnswerRun(p)), [Answer(p)], [RekeyStarted]);
    }
    var y' := After(x, y);
    Exchange(x, y, y', xc, yc, Some(AnswerRun(p)), [Answer(p)]);
    MovesCore(y, y', Some(AnswerRun(p)), [Answer(p)]);
  }

  /** What a move leaves of the fields that stages look at. */
  lemma MovesCore(e: Endpoint, e': Endpoint, run: Option<Run>, sends: seq<Frame>)
    requires Moves(e, e', run, sends)
    ensures SameParty(e.last, e'.last) && e'.last.phase == e.last.phase && e'.last.run == run
    ensures e'.last.active == e.last.active && e'.last.draining == e.last.draining && Over(e') == Over(e)
    ensures e'.sent == e.sent && e'.delivered == e.delivered
  {
  }

  /** The losing side of a glare drops its own offer. */
  lemma LoserHears(x: Endpoint, y: Endpoint, g: Stage, xc: seq<seq<byte>>, yc: seq<seq<byte>>) returns (g': Stage)
    requires Joint(x, y, g, xc, yc) && g.Glare? && Reads(x, y)
    ensures Kept(y, After(x, y))
    ensures var y' := After(x, y);
            g'.Answered? && g'.p == Pairing(Purpose.Rekey, Some(g.before), g.winner, NextHalf(y.last))
            && (g'.stale.None? <==> g.heard) && Joint(Popped(x), y', g', xc, yc) && y'.log == y.log
  {
    hide Link, Applied, OnFrame, Party, Valid, Sound, OfferRun, Commit, Answer, AnswerRun, Becomes, Moves;
    var p := Pairing(Purpose.Rekey, Some(g.before), g.winner, NextHalf(y.last));
    g' := Answered(p, if g.heard then None else Some(g.loser));
    HeadOfControl(x.outbox);
    PlainFrames(p, Purpose.Rekey, Some(g.before), g.winner);
    PlainHasNoConfirm(x.outbox);
    GlareLoses(y.last, g.loser, g.winner);
    ReadMoves(y, x.outbox[0], Some(AnswerRun(p)), [Answer(p)], []);
    var y' := After(x, y);
    Exchange(x, y, y', xc, yc, Some(AnswerRun(p)), [Answer(p)]);
    MovesCore(y, y', Some(AnswerRun(p)), [Answer(p)]);
  }

  lemma BetweenHosts(x: Machine, y: Machine, p: Pairing)
    requires Between(x, y, p) && Honest(x, y)
    ensures Hosts(x, p, p.r.identity) && Hosts(y, p, p.i.identity) && WellPaired(p)
    ensures x.identity == p.i.identity && y.identity == p.r.identity
  {
  }

  lemma ReadsTheReveal(x: Endpoint, y: Endpoint, g: Stage, xc: seq<seq<byte>>, yc: seq<seq<byte>>) returns (g': Stage)
    requires Joint(x, y, g, xc, yc) && g.Revealed? && Reads(x, y)
    ensures Kept(y, After(x, y))
    ensures var y' := After(x, y);
            g' == Shared(g.p, g.approved, g.p.purpose.Rekey?, false) && Joint(Popped(x), y', g', xc, yc)
                && y'.log == y.log
  {
    hide Link, Applied, OnFrame, Party, Valid, Sound, RevealFrame, FirstAuth, AnswerRun, ResponderAt, Becomes, Moves;
    var p := g.p;
    g' := Shared(p, g.approved, p.purpose.Rekey?, false);
    HeadOfControl(x.outbox);
    PlainFrames(p, p.purpose, p.previous, p.i);
    PlainHasNoConfirm(x.outbox);
    BetweenHosts(x.last, y.last, p);
    ReadsReveal(y.last, p);
    var run := ResponderAt(p, if p.purpose.Initial? then Sas else AuthInit, None);
    ReadMoves(y, x.outbox[0], Some(run), [], []);
    var y' := After(x, y);
    Exchange(x, y, y', xc, yc, Some(run), []);
    MovesCore(y, y', Some(run), []);
    assert InStage(x.last, y'.last, Control(Popped(x).outbox), Control(y'.outbox), g');
  }

  lemma ReadsFirstAuth(x: Endpoint, y: Endpoint, g: Stage, xc: seq<seq<byte>>, yc: seq<seq<byte>>) returns (g': Stage)
    requires Joint(x, y, g, xc, yc) && g.Shared? && g.accepted && Reads(x, y)
    ensures Kept(y, After(x, y))
    ensures var y' := After(x, y);
            g' == Signed(g.p) && Joint(Popped(x), y', g', xc, yc) && y'.log == y.log
  {
    hide Link, Applied, OnFrame, Party, Valid, Sound, FirstAuth, SecondAuth, InitiatorAt, ResponderAt, Becomes, Moves;
    var p := g.p;
    g' := Signed(p);
    HeadOfControl(x.outbox);
    PlainFrames(p, p.purpose, p.previous, p.i);
    PlainHasNoConfirm(x.outbox);
    BetweenHosts(x.last, y.last, p);
    Countersigns(y.last, p);
    var run, sends := ResponderAt(p, ConfirmInit, None), [SecondAuth(p)];
    ReadMoves(y, x.outbox[0], Some(run), sends, []);
    var y' := After(x, y);
    Exchange(x, y, y', xc, yc, Some(run), sends);
    MovesCore(y, y', Some(run), sends);
  }

  /** The AUTH overtakes the responder's user. */
  lemma BuffersFirstAuth(x: Endpoint, y: Endpoint, g: Stage, xc: seq<seq<byte>>, yc: seq<seq<byte>>) returns (g': Stage)
    requires Joint(x, y, g, xc, yc) && g.Shared? && !g.accepted && Reads(x, y)
    ensures Kept(y, After(x, y))
    ensures var y' := After(x, y);
            g' == Shared(g.p, true, false, true) && Joint(Popped(x), y', g', xc, yc) && y'.log == y.log
  {
    hide Link, Applied, OnFrame, Party, Valid, Sound, FirstAuth, SecondAuth, InitiatorAt, ResponderAt, Becomes, Moves;
    var p := g.p;
    g' := Shared(p, true, false, true);
    HeadOfControl(x.outbox);
    PlainFrames(p, p.purpose, p.previous, p.i);
    PlainHasNoConfirm(x.outbox);
    BetweenHosts(x.last, y.last, p);
    Buffers(y.last, p);
    var run := ResponderAt(p, Sas, Some(FirstAuth(p)));
    ReadMoves(y, x.outbox[0], Some(run), [], []);
    var y' := After(x, y);
    Exchange(x, y, y', xc, yc, Some(run), []);
    MovesCore(y, y', Some(run), []);
  }

  // ------------------------------------------------------------------ frames the initiator reads

  /** The winning side of a glare, and an initiator that was already answered, ignore the loser's offer. */
  lemma WinnerIgnores(x: Endpoint, y: Endpoint, g: Stage, xc: seq<seq<byte>>, yc: seq<seq<byte>>) returns (g': Stage)
    requires Joint(x, y, g, xc, yc) && Reads(y, x) && (g.Glare? || (g.Answered? && g.stale.Some?))
    ensures Kept(x, After(y, x))
    ensures var x' := After(y, x);
            (if g.Glare? then !g.heard && g' == g.(heard := true) else g' == g.(stale := None))
            && Joint(x', Popped(y), g', xc, yc) && x'.log == x.log
  {
    hide Link, Applied, OnFrame, Party, Valid, Sound, OfferRun, Commit, Answer, AnswerRun, Becomes, Moves;
    HeadOfControl(y.outbox);
    var p := if g.Glare? then Pairing(Purpose.Rekey, Some(g.before), g.winner, g.loser) else g.p;
    var stale := if g.Glare? then g.loser else g.stale.value;
    g' := if g.Glare? then g.(heard := true) else g.(stale := None);
    PlainFrames(p, Purpose.Rekey, p.previous, stale);
    PlainHasNoConfirm(y.outbox);
    GlareWins(x.last, p.i, stale);
    Unmoved(x.last);
    ReadMoves(x, y.outbox[0], x.last.run, [], []);
    var x' := After(y, x);
    Exchange(y, x, x', yc, xc, x.last.run, []);
    MovesCore(x, x', x.last.run, []);
  }

  lemma Unmoved(m: Machine)
    ensures Becomes(m, m, m.run, [], [])
  {
    NothingAdded(m);
  }

  lemma ReadsTheAnswer(x: Endpoint, y: Endpoint, g: Stage, xc: seq<seq<byte>>, yc: seq<seq<byte>>) returns (g': Stage)
    requires Joint(x, y, g, xc, yc) && g.Answered? && g.stale.None? && Reads(y, x)
    ensures Kept(x, After(y, x))
    ensures var x' := After(y, x);
            g' == Revealed(g.p, g.p.purpose.Rekey?) && Joint(x', Popped(y), g', xc, yc) && x'.log == x.log
  {
    hide Link, Applied, OnFrame, Party, Valid, Sound, OfferRun, Answer, RevealFrame, FirstAuth, AnswerRun, InitiatorAt,
      Becomes, Moves;
    var p := g.p;
    g' := Revealed(p, p.purpose.Rekey?);
    HeadOfControl(y.outbox);
    PlainFrames(p, p.purpose, p.previous, p.i);
    PlainHasNoConfirm(y.outbox);
    BetweenHosts(x.last, y.last, p);
    ReadsAnswer(x.last, p);
    var run := InitiatorAt(p, if p.purpose.Initial? then Sas else AuthResp);
    var sends := if p.purpose.Initial? then [RevealFrame(p)] else [RevealFrame(p), FirstAuth(p)];
    assert [RevealFrame(p)] + (if p.purpose.Initial? then [] else [FirstAuth(p)]) == sends;
    ReadMoves(x, y.outbox[0], Some(run), sends, []);
    var x' := After(y, x);
    Exchange(y, x, x', yc, xc, Some(run), sends);
    MovesCore(x, x', Some(run), sends);
  }

  /** The confirmation leaves the initiator behind at the end of its channel. */
  lemma ReadsSecondAuth(x: Endpoint, y: Endpoint, g: Stage, xc: seq<seq<byte>>, yc: seq<seq<byte>>) returns (g': Stage)
    requires Joint(x, y, g, xc, yc) && g.Signed? && Reads(y, x)
    ensures Kept(x, After(y, x))
    ensures var x' := After(y, x);
            g' == Confirmed(g.p) && Joint(x', Popped(y), g', xc, yc) && x'.log == x.log
  {
    hide Link, Applied, OnFrame, Party, Valid, Sound, SecondAuth, ConfirmFrom, InitiatorAt, ResponderAt, Becomes, Moves;
    var p := g.p;
    g' := Confirmed(p);
    HeadOfControl(y.outbox);
    PlainFrames(p, p.purpose, p.previous, p.i);
    PlainHasNoConfirm(y.outbox);
    BetweenHosts(x.last, y.last, p);
    Confirms(x.last, p);
    var run := InitiatorAt(p, ConfirmResp);
    var sends := [ConfirmFrom(p, Initiator)];
    ReadMoves(x, y.outbox[0], Some(run), sends, []);
    var x' := After(y, x);
    ConfirmingLinks(x, x', y, xc, yc, run, sends[0]);
    MovesCore(x, x', Some(run), sends);
    assert InStage(x'.last, y.last, Control(x'.outbox), Control(Popped(y).outbox), g');
  }

  /** The initiator reads the countersignature and confirms: both links survive, its own one as the laggard's. */
  lemma ConfirmingLinks(x: Endpoint, x': Endpoint, y: Endpoint, xc: seq<seq<byte>>, yc: seq<seq<byte>>, run: Run,
      confirm: Frame)
    requires Link(x, y, xc, false) && Link(y, x, yc, false) && Moves(x, x', Some(run), [confirm])
    requires confirm.messageType.SessionConfirm?
    requires y.outbox != [] && IsControl(y.outbox[0]) && NoConfirm(y.outbox)
    ensures Link(x', Popped(y), xc, true) && Link(Popped(y), x', yc, false)
    ensures Control(Popped(y).outbox) == Control(y.outbox)[1..] && Control(x'.outbox) == Control(x.outbox) + [confirm]
    ensures y.outbox[0] == Control(y.outbox)[0]
  {
    ReaderReads(y, x, x', yc, Some(run), [confirm]);
    PopControl(y.outbox);
    SentControl(x, x', Some(run), [confirm]);
    WriterConfirms(x, x', y, xc, run, confirm);
    PoppedReader(x', y, xc, true);
  }

  lemma WriterConfirms(e: Endpoint, e': Endpoint, to: Endpoint, cs: seq<seq<byte>>, run: Run, f: Frame)
    requires Moves(e, e', Some(run), [f]) && f.messageType.SessionConfirm? && Link(e, to, cs, false)
    ensures Link(e', to, cs, true)
  {
    AppendConfirm(e.outbox, ViewOf(to.last), cs, SenderOf(e.last), f);
  }

  // ------------------------------------------------------------------ promotion

  /** One endpoint put a new session in place. */
  predicate Promoting(e: Endpoint, e': Endpoint, s: Session, sends: seq<Frame>) {
    !Over(e) && !Over(e') && SameParty(e.last, e'.last) && e'.last.phase.Open? && e'.last.run.None?
    && e'.last.active == Some(s) && e'.last.draining == e.last.active
    && e'.outbox == e.outbox + sends && e'.sent == e.sent && e'.delivered == e.delivered
    && e'.log == e.log + [if e.last.active.Some? then RekeyCompleted else Established(s.peer)]
  }

  lemma ReadPromotes(e: Endpoint, f: Frame, s: Session, sends: seq<Frame>)
    requires Party(e) && !Over(e) && Promotes(e.last, OnFrame(e.last, f), s, sends)
    ensures Promoting(e, Applied(e, FrameReceived(f)), s, sends)
  {
    hide OnFrame, Handle, Valid, Sound;
    FrameInput(e, f);
    assert Sends([]) == [] && Delivers([]) == [] && Events([]) == [];
    assert [] + sends == sends;
    assert e.sent + [] == e.sent && e.delivered + [] == e.delivered;
    assert [] + [if e.last.active.Some? then RekeyCompleted else Established(s.peer)]
        == [if e.last.active.Some? then RekeyCompleted else Established(s.peer)];
  }

  /** Where the reader reads the confirmation, it switches to the session it was expecting. */
  lemma ReaderSwitches(from: Endpoint, e: Endpoint, e': Endpoint, cs: seq<seq<byte>>, behind: bool, s: Session,
      sends: seq<Frame>)
    requires Promoting(e, e', s, sends) && Link(from, e, cs, behind)
    requires from.outbox != [] && from.outbox[0].messageType.SessionConfirm?
    requires Pending(e.last.run) == Some(Expected(s.receiver))
    ensures Link(Popped(from), e', cs, behind)
  {
    var v := ViewOf(e.last);
    assert Good(from.outbox[1..], AfterControl(v, from.outbox[0]), cs, TipOf(from, behind));
    assert ViewOf(e'.last) == View(v.pending, v.active, None);
  }

  lemma WriterSwitches(e: Endpoint, e': Endpoint, to: Endpoint, cs: seq<seq<byte>>, s: Session, f: Frame)
    requires Promoting(e, e', s, [f]) && Link(e, to, cs, false) && f.messageType.SessionConfirm?
    requires NoConfirm(e.outbox) && Pending(to.last.run) == Some(s.sender)
    ensures Link(e', to, cs, false)
  {
    AppendSwitch(e.outbox, ViewOf(to.last), cs, SenderOf(e.last), f);
  }

  lemma WriterCatchesUp(e: Endpoint, e': Endpoint, to: Endpoint, cs: seq<seq<byte>>, s: Session)
    requires Promoting(e, e', s, []) && Link(e, to, cs, true)
    requires Control(e.outbox) == [] && Awaited(to.last.active) == Some(s.sender)
    ensures Link(e', to, cs, false)
  {
    CatchesUp(e.outbox, ViewOf(to.last), cs, SenderOf(e.last));
    assert e.outbox + [] == e.outbox;
  }

  /** The two sessions of a pairing mirror each other. */
  lemma MirrorSessions(p: Pairing)
    ensures Expected(SessionOf(p, Responder).receiver) == SessionOf(p, Initiator).sender
    ensures Expected(SessionOf(p, Initiator).receiver) == SessionOf(p, Responder).sender
    ensures SessionOf(p, Responder).id == SessionOf(p, Initiator).id == IdOf(KeysFor(p))
    ensures SessionOf(p, Responder).peer == p.i.identity && SessionOf(p, Initiator).peer == p.r.identity
    ensures SessionOf(p, Initiator).sender.direction == SessionOf(p, Responder).receiver.direction
        == SendDirection(Initiator)
    ensures SessionOf(p, Responder).sender.direction == SessionOf(p, Initiator).receiver.direction
        == SendDirection(Responder)
  {
  }

  lemma KeptPromoting(e: Endpoint, e': Endpoint, p: Pairing, role: Role, sends: seq<Frame>)
    requires Promoting(e, e', SessionOf(p, role), sends)
    ensures Kept(e, e')
  {
  }

  lemma ResponderSwitches(x: Endpoint, y: Endpoint, g: Stage, xc: seq<seq<byte>>,
      yc: seq<seq<byte>>) returns (g': Stage)
    requires Joint(x, y, g, xc, yc) && g.Confirmed? && Reads(x, y)
    ensures After(x, y).last.active == Some(SessionOf(g.p, Responder)) && After(x, y).last.run.None?
    ensures Kept(y, After(x, y))
    ensures var y' := After(x, y);
            g' == Promoted(g.p, None) && Joint(Popped(x), y', g', xc, yc)
            && y'.log == y.log + [if g.p.purpose.Rekey? then RekeyCompleted else Established(x.last.identity)]
  {
    hide Link, Applied, OnFrame, Party, Valid, Sound, ConfirmFrom, InitiatorAt, ResponderAt, KeysFor, Promotes,
      NewSession;
    var p := g.p;
    g' := Promoted(p, None);
    HeadOfControl(x.outbox);
    PlainFrames(p, p.purpose, p.previous, p.i);
    PlainHasNoConfirm(y.outbox);
    BetweenHosts(x.last, y.last, p);
    PendingOf(p, p.purpose, p.previous, p.i, Sas, None);
    MirrorSessions(p);
    ResponderPromotes(y.last, p);
    var s := SessionOf(p, Responder);
    ReadPromotes(y, x.outbox[0], s, [ConfirmFrom(p, Responder)]);
    var y' := After(x, y);
    ReaderSwitches(x, y, y', xc, true, s, [ConfirmFrom(p, Responder)]);
    WriterSwitches(y, y', x, yc, s, ConfirmFrom(p, Responder));
    PoppedReader(y', x, yc, false);
    PopControl(x.outbox);
    PromotedControl(y, y', s, ConfirmFrom(p, Responder));
    KeptPromoting(y, y', p, Responder, [ConfirmFrom(p, Responder)]);
  }

  lemma PromotedControl(e: Endpoint, e': Endpoint, s: Session, f: Frame)
    requires Promoting(e, e', s, [f]) && IsControl(f)
    ensures Control(e'.outbox) == Control(e.outbox) + [f]
  {
    ControlAppend(e.outbox, [f]);
    assert [f][1..] == [];
  }

  /** With the responder's confirmation the initiator follows; an offer made meanwhile comes next. */
  lemma InitiatorSwitches(x: Endpoint, y: Endpoint, g: Stage, xc: seq<seq<byte>>,
      yc: seq<seq<byte>>) returns (g': Stage)
    requires Joint(x, y, g, xc, yc) && g.Promoted? && Reads(y, x)
    ensures After(y, x).last.active == Some(SessionOf(g.p, Initiator)) && After(y, x).last.run.None?
    ensures Kept(x, After(y, x))
    ensures var x' := After(y, x);
            x'.log == x.log + [if g.p.purpose.Rekey? then RekeyCompleted else Established(y.last.identity)]
            && (g.next.None? ==> g' == Quiet && Joint(x', Popped(y), g', xc, yc))
            && (g.next.Some? ==> g'.Offered? && g'.purpose.Rekey? && Joint(Popped(y), x', g', yc, xc))
  {
    hide Link, Applied, OnFrame, Party, Valid, Sound, ConfirmFrom, Commit, OfferRun, InitiatorAt, KeysFor, Promotes,
      NewSession;
    var p := g.p;
    g' := if g.next.None? then Quiet else Offered(Purpose.Rekey, Some(IdOf(KeysFor(p))), g.next.value);
    HeadOfControl(y.outbox);
    PendingOf(p, p.purpose, p.previous, p.i, Sas, None);
    MirrorSessions(p);
    InitiatorPromotes(x.last, p);
    var s := SessionOf(p, Initiator);
    PlainFrames(p, p.purpose, p.previous, p.i);
    ReadPromotes(x, y.outbox[0], s, []);
    var x' := After(y, x);
    ReaderSwitches(y, x, x', yc, false, s, []);
    KeptPromoting(x, x', p, Initiator, []);
    WriterCatchesUp(x, x', y, xc, s);
    PoppedReader(x', y, xc, false);
    PopControl(y.outbox);
    assert x.outbox + [] == x.outbox;
    if g.next.Some? {
      assert Control(Popped(y).outbox) == [Commit(Purpose.Rekey, ActiveId(y.last), g.next.value)];
    }
  }
}
