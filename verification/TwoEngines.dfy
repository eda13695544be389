/** Two honest engines joined by two FIFO channels. */
module TwoEngines {
  import opened Protocol
  import opened Symbolic
  import opened Ratchet
  import opened Data
  import opened Machine
  import opened EngineInvariants
  import opened HonestSteps
  import opened InFlight
  import opened LocalSteps

  // ------------------------------------------------------------------ the system

  /**
   * One engine with what it has written and the peer has not yet read, the contents it encrypted and
   * delivered, and its events. `last` remembers the engine as it was before it ended.
   */
  datatype Endpoint = Endpoint(
    engine: Machine, last: Machine, outbox: seq<Frame>,
    sent: seq<seq<byte>>, delivered: seq<seq<byte>>, log: seq<Event>)

  datatype Side = Dialer | Listener

  datatype System = System(dialer: Endpoint, listener: Endpoint)

  /** `Deliver(to)` hands the oldest unread frame to that side. */
  datatype Action = Act(side: Side, input: Input) | Deliver(to: Side)

  function Other(side: Side): Side {
    if side.Dialer? then Listener else Dialer
  }

  function Get(s: System, side: Side): Endpoint {
    if side.Dialer? then s.dialer else s.listener
  }

  function Put(s: System, side: Side, e: Endpoint): System {
    if side.Dialer? then s.(dialer := e) else s.(listener := e)
  }

  predicate Over(e: Endpoint) {
    e.engine.phase.Ended?
  }

  /** The content that this input made the engine encrypt, if any. */
  function Encrypted(input: Input, sends: seq<Frame>): seq<seq<byte>> {
    if input.LocalSend? && sends != [] && sends[0].messageType.Data? then [input.content] else []
  }

  function Applied(e: Endpoint, input: Input): Endpoint {
    var r := Handle(e.engine, input);
    var engine := r.(out := []);
    Endpoint(engine, if r.phase.Ended? then e.last else engine, e.outbox + Sends(r.out),
             e.sent + Encrypted(input, Sends(r.out)), e.delivered + Delivers(r.out), e.log + Events(r.out))
  }

  function Popped(e: Endpoint): Endpoint
    requires e.outbox != []
  {
    e.(outbox := e.outbox[1..])
  }

  /**
   * A side that has ended reads and does no more. Frames come from the channel only, and no HandshakeFrame,
   * HandshakeTotal or Drain timeout fires.
   */
  predicate Enabled(s: System, action: Action) {
    match action
    case Act(side, input) => !Over(Get(s, side)) && Permitted(Get(s, side).engine, input)
    case Deliver(to) => !Over(Get(s, to)) && Get(s, Other(to)).outbox != []
  }

  /** The same with any timeout. */
  predicate Possible(s: System, action: Action) {
    match action
    case Act(side, input) => !Over(Get(s, side)) && !input.FrameReceived?
    case Deliver(to) => !Over(Get(s, to)) && Get(s, Other(to)).outbox != []
  }

  function StepSystem(s: System, action: Action): System
    requires Possible(s, action)
  {
    match action
    case Act(side, input) => Put(s, side, Applied(Get(s, side), input))
    case Deliver(to) =>
      var from := Get(s, Other(to));
      Put(Put(s, Other(to), Popped(from)), to, Applied(Get(s, to), FrameReceived(from.outbox[0])))
  }

  function Fresh(m: Machine): Endpoint {
    Endpoint(m, m, [], [], [], [])
  }

  /** Both engines once they are started. */
  function Begin(dialer: Machine, listener: Machine): System {
    System(Applied(Fresh(dialer), Start), Applied(Fresh(listener), Start))
  }

  /** Distinct identities and entropy sources. */
  predicate Honest(x: Machine, y: Machine) {
    x.identity != y.identity && x.source != y.source
  }

  // ------------------------------------------------------------------ where a handshake stands

  /** Stages of the joint handshake; the first endpoint is always its initiator. */
  datatype Stage =
    | Quiet
    | Offered(purpose: Purpose, previous: Option<SessionId>, i: Half)
    | Glare(before: SessionId, winner: Half, loser: Half, heard: bool)
    | Answered(p: Pairing, stale: Option<Half>)
    | Revealed(p: Pairing, approved: bool)
    | Shared(p: Pairing, approved: bool, accepted: bool, early: bool)
    | Signed(p: Pairing)
    | Confirmed(p: Pairing)
    | Promoted(p: Pairing, next: Option<Half>)

  predicate Own(m: Machine, h: Half) {
    h.identity == m.identity && h.secret.source == m.source
  }

  /** Both are established on one session, in mirrored directions. */
  predicate Paired(x: Machine, y: Machine) {
    x.phase.Open? && y.phase.Open? && x.active.Some? && y.active.Some?
    && x.active.value.id == y.active.value.id
    && x.active.value.peer == y.identity && y.active.value.peer == x.identity
    && x.active.value.sender.direction == y.active.value.receiver.direction
    && y.active.value.sender.direction == x.active.value.receiver.direction
  }

  /** The ground a handshake of this purpose stands on. */
  predicate Ground(x: Machine, y: Machine, purpose: Purpose, previous: Option<SessionId>) {
    if purpose.Initial? then
      x.phase.Handshaking? && y.phase.Handshaking? && x.role.Initiator? && y.role.Responder? && previous.None?
      && x.active.None? && y.active.None? && x.draining.None? && y.draining.None?
    else Paired(x, y) && previous == Some(x.active.value.id)
  }

  predicate Between(x: Machine, y: Machine, p: Pairing) {
    Ground(x, y, p.purpose, p.previous) && Own(x, p.i) && Own(y, p.r)
  }

  /** The responder has switched to the new session. */
  predicate Switched(x: Machine, y: Machine, p: Pairing) {
    Own(x, p.i) && Own(y, p.r) && WellPaired(p)
    && Hosts(x, p, y.identity) && (p.purpose.Initial? ==> x.draining.None?)
    && y.phase.Open? && y.active.Some? && y.active.value.id == IdOf(KeysFor(p)) && y.active.value.peer == x.identity
    && y.active.value.receiver.direction == SendDirection(Initiator)
    && y.active.value.sender.direction == SendDirection(Responder)
  }

  predicate InStage(x: Machine, y: Machine, xs: seq<Frame>, ys: seq<Frame>, g: Stage) {
    Honest(x, y) &&
    match g
    case Quiet => Paired(x, y) && x.run.None? && y.run.None? && xs == [] && ys == []
    case Offered(purpose, previous, i) =>
      Ground(x, y, purpose, previous) && Own(x, i) && x.run == Some(OfferRun(purpose, previous, i)) && y.run.None?
      && xs == [Commit(purpose, previous, i)] && ys == []
    case Glare(before, winner, loser, heard) =>
      Ground(x, y, Purpose.Rekey, Some(before)) && Own(x, winner) && Own(y, loser) && x.identity > y.identity
      && x.run == Some(OfferRun(Purpose.Rekey, Some(before), winner))
      && y.run == Some(OfferRun(Purpose.Rekey, Some(before), loser))
      && xs == [Commit(Purpose.Rekey, Some(before), winner)]
      && ys == if heard then [] else [Commit(Purpose.Rekey, Some(before), loser)]
    case Answered(p, stale) =>
      Between(x, y, p) && x.run == Some(OfferRun(p.purpose, p.previous, p.i)) && y.run == Some(AnswerRun(p))
      && xs == [] && ys == (if stale.Some? then [Commit(p.purpose, p.previous, stale.value), Answer(p)]
          else [Answer(p)])
      && (stale.Some? ==> p.purpose.Rekey? && x.identity > y.identity)
    case Revealed(p, approved) =>
      Between(x, y, p) && x.run == Some(InitiatorAt(p, if approved then AuthResp else Sas))
          && y.run == Some(AnswerRun(p))
      && xs == (if approved then [RevealFrame(p), FirstAuth(p)] else [RevealFrame(p)]) && ys == []
      && (p.purpose.Rekey? ==> approved)
    case Shared(p, approved, accepted, early) =>
      Between(x, y, p) && x.run == Some(InitiatorAt(p, if approved then AuthResp else Sas))
      && y.run == Some(ResponderAt(p, if accepted then AuthInit else Sas, if early then Some(FirstAuth(p)) else None))
      && xs == (if approved && !early then [FirstAuth(p)] else []) && ys == []
      && (early ==> approved && !accepted) && (p.purpose.Rekey? ==> approved && accepted)
    case Signed(p) =>
      Between(x, y, p) && x.run == Some(InitiatorAt(p, AuthResp)) && y.run == Some(ResponderAt(p, ConfirmInit, None))
      && xs == [] && ys == [SecondAuth(p)]
    case Confirmed(p) =>
      Between(x, y, p) && x.run == Some(InitiatorAt(p, ConfirmResp)) && y.run == Some(ResponderAt(p, ConfirmInit, None))
      && xs == [ConfirmFrom(p, Initiator)] && ys == []
    case Promoted(p, next) =>
      Switched(x, y, p) && x.run == Some(InitiatorAt(p, ConfirmResp)) && xs == []
      && y.run == (if next.Some? then Some(OfferRun(Purpose.Rekey, ActiveId(y), next.value)) else None)
      && ys == (if next.Some? then [ConfirmFrom(p, Responder), Commit(Purpose.Rekey, ActiveId(y), next.value)]
                else [ConfirmFrom(p, Responder)])
      && (next.Some? ==> Own(y, next.value))
  }

  // ------------------------------------------------------------------ the joint invariant

  function SenderOf(m: Machine): Option<Sender> {
    if m.active.Some? then Some(m.active.value.sender) else None
  }

  function TipOf(e: Endpoint, behind: bool): Tip {
    if Over(e) then Gone else if behind then Behind(SenderOf(e.last)) else At(SenderOf(e.last))
  }

  /** What is in flight makes up the difference between what was encrypted and what was delivered. */
  ghost predicate Link(from: Endpoint, to: Endpoint, cs: seq<seq<byte>>, behind: bool) {
    Good(from.outbox, ViewOf(to.last), cs, TipOf(from, behind)) && from.sent == to.delivered + cs
  }

  /** The initiator is behind while its confirmation, or the responder's, is unread. */
  predicate Lags(g: Stage) {
    g.Confirmed? || g.Promoted?
  }

  /** The ids, directions and chains of a session fit together and nothing was skipped. */
  predicate SoundSession(s: Session) {
    s.id == s.sender.sessionId == s.receiver.sessionId && InOrder(s.receiver)
    && OnChain(s.id, s.sender) && OnChain(s.id, Expected(s.receiver))
  }

  /** The chain key is that of the session's keys at this counter. */
  predicate OnChain(id: SessionId, s: Sender) {
    id.IdOf? && s.chainKey == ChainAt(Seed(id.keys, s.direction), s.direction, s.counter)
  }

  lemma ChainGoesOn(id: SessionId, s: Sender)
    requires OnChain(id, s)
    ensures OnChain(id, AfterEncrypt(s))
  {
  }

  predicate Sound(m: Machine) {
    (m.active.Some? ==> SoundSession(m.active.value)) && (m.draining.Some? ==> SoundSession(m.draining.value))
  }

  predicate Party(e: Endpoint) {
    Valid(e.last) && Sound(e.last) && e.last.out == [] && (e.last.phase.Handshaking? || e.last.phase.Open?)
    && (!Over(e) ==> e.engine == e.last)
  }

  /**
   * Everything but the engines' own validity. While the initiator has not followed, nothing has reached
   * the responder on its new session, and the session it superseded is still the initiator's.
   */
  ghost predicate Joint(x: Endpoint, y: Endpoint, g: Stage, xc: seq<seq<byte>>, yc: seq<seq<byte>>) {
    InStage(x.last, y.last, Control(x.outbox), Control(y.outbox), g)
    && Link(x, y, xc, Lags(g)) && Link(y, x, yc, false)
    && (g.Promoted? && !Over(x) ==>
          y.last.active.Some? && y.last.active.value.receiver
              == NewSession(KeysFor(g.p), Responder, x.last.identity).receiver
          && (g.p.purpose.Rekey? ==>
                y.last.draining.Some? && x.last.active.Some? && y.last.draining.value.id == x.last.active.value.id))
  }

  // ------------------------------------------------------------------ moves of one endpoint

  /** One endpoint changed its run and wrote control frames; its sessions are as they were. */
  predicate Moves(e: Endpoint, e': Endpoint, run: Option<Run>, sends: seq<Frame>) {
    !Over(e) && !Over(e') && SameParty(e.last, e'.last) && e'.last.phase == e.last.phase && e'.last.run == run
    && e'.last.active == e.last.active && e'.last.draining == e.last.draining
    && e'.outbox == e.outbox + sends && e'.sent == e.sent && e'.delivered == e.delivered
  }

  lemma AppliedMoves(e: Endpoint, input: Input, run: Option<Run>, sends: seq<Frame>, events: seq<Event>)
    requires Party(e) && !Over(e) && !input.LocalSend?
    requires Becomes(e.last, Handle(e.last, input), run, sends, events)
    ensures var e' := Applied(e, input);
            Moves(e, e', run, sends) && e'.log == e.log + events
  {
    hide Handle, Valid, Sound;
    assert Sends([]) == [] && Delivers([]) == [] && Events([]) == [];
    assert [] + sends == sends && [] + events == events;
    assert e.sent + [] == e.sent && e.delivered + [] == e.delivered;
  }

  lemma FrameInput(e: Endpoint, f: Frame)
    requires Party(e) && !Over(e)
    ensures Handle(e.last, FrameReceived(f)) == OnFrame(e.last, f)
  {
    hide OnFrame, Valid, Sound;
    assert e.last.(out := []) == e.last;
  }

  lemma ReadMoves(e: Endpoint, f: Frame, run: Option<Run>, sends: seq<Frame>, events: seq<Event>)
    requires Party(e) && !Over(e) && Becomes(e.last, OnFrame(e.last, f), run, sends, events)
    ensures var e' := Applied(e, FrameReceived(f));
            Moves(e, e', run, sends) && e'.log == e.log + events
  {
    hide OnFrame, Handle, Party, Becomes, Applied;
    FrameInput(e, f);
    AppliedMoves(e, FrameReceived(f), run, sends, events);
  }

  // ------------------------------------------------------------------ links under moves

  /** Control frames other than confirmations. */
  predicate Plain(fs: seq<Frame>) {
    forall f :: f in fs ==> IsControl(f) && !f.messageType.SessionConfirm?
  }

  lemma {:induction false} AppendPlain(chan: seq<Frame>, v: View, cs: seq<seq<byte>>, s: Option<Sender>, fs: seq<Frame>)
    requires Good(chan, v, cs, At(s)) && Plain(fs)
    ensures Good(chan + fs, v, cs, At(s))
    decreases |fs|
  {
    if fs == [] {
      assert chan + fs == chan;
    } else {
      assert fs[0] in fs;
      AppendControl(chan, v, cs, s, fs[0]);
      AppendPlain(chan + [fs[0]], v, cs, s, fs[1..]);
      assert chan + [fs[0]] + fs[1..] == chan + fs;
    }
  }

  /** The writer moves on without confirming. */
  lemma WriterMoves(e: Endpoint, e': Endpoint, to: Endpoint, cs: seq<seq<byte>>, run: Option<Run>, sends: seq<Frame>)
    requires Moves(e, e', run, sends) && Plain(sends) && Link(e, to, cs, false)
    ensures Link(e', to, cs, false)
  {
    AppendPlain(e.outbox, ViewOf(to.last), cs, SenderOf(e.last), sends);
  }

  /** The reader moves on without reading; a pending session matters only if a confirmation is under way. */
  lemma ReaderMoves(from: Endpoint, e: Endpoint, e': Endpoint, cs: seq<seq<byte>>, behind: bool, run: Option<Run>,
      sends: seq<Frame>)
    requires Moves(e, e', run, sends) && Link(from, e, cs, behind)
    requires NoConfirm(from.outbox) || Pending(run) == Pending(e.last.run)
    ensures Link(from, e', cs, behind)
  {
    if NoConfirm(from.outbox) {
      PendingIrrelevant(from.outbox, ViewOf(e.last), cs, TipOf(from, behind), Pending(run));
    }
    assert ViewOf(e'.last) == ViewOf(e.last).(pending := Pending(run));
  }

  /** The reader reads a control frame that is no confirmation. */
  lemma ReaderReads(from: Endpoint, e: Endpoint, e': Endpoint, cs: seq<seq<byte>>, run: Option<Run>, sends: seq<Frame>)
    requires Moves(e, e', run, sends) && Link(from, e, cs, false)
    requires from.outbox != [] && IsControl(from.outbox[0]) && NoConfirm(from.outbox)
    ensures Link(Popped(from), e', cs, false)
  {
    var v := ViewOf(e.last);
    ConfirmLater(from.outbox);
    assert Good(from.outbox[1..], v.(drain := None), cs, TipOf(from, false));
    DrainHarmless(from.outbox[1..], v, cs, TipOf(from, false));
    PendingIrrelevant(from.outbox[1..], v, cs, TipOf(from, false), Pending(run));
    assert ViewOf(e'.last) == v.(pending := Pending(run));
  }

  /** Popping the other channel does not touch this one. */
  lemma PoppedReader(from: Endpoint, e: Endpoint, cs: seq<seq<byte>>, behind: bool)
    requires Link(from, e, cs, behind) && e.outbox != []
    ensures Link(from, Popped(e), cs, behind)
  {
  }

  lemma PopControl(chan: seq<Frame>)
    requires chan != [] && IsControl(chan[0])
    ensures Control(chan) == [chan[0]] + Control(chan[1..]) && Control(chan[1..]) == Control(chan)[1..]
  {
  }

  lemma {:induction false} PlainControl(fs: seq<Frame>)
    requires forall f :: f in fs ==> IsControl(f)
    ensures Control(fs) == fs
  {
    if fs != [] {
      assert fs[0] in fs;
      PlainControl(fs[1..]);
      assert [fs[0]] + fs[1..] == fs;
    }
  }

  lemma SentControl(e: Endpoint, e': Endpoint, run: Option<Run>, sends: seq<Frame>)
    requires Moves(e, e', run, sends) && forall f :: f in sends ==> IsControl(f)
    ensures Control(e'.outbox) == Control(e.outbox) + sends
  {
    ControlAppend(e.outbox, sends);
    PlainControl(sends);
  }

  /** The frames before the confirmations are plain. */
  lemma PlainFrames(p: Pairing, purpose: Purpose, previous: Option<SessionId>, h: Half)
    ensures Plain([Commit(purpose, previous, h)]) && Plain([Answer(p)]) && Plain([RevealFrame(p)])
        && Plain([FirstAuth(p)])
    ensures Plain([SecondAuth(p)]) && Plain([RevealFrame(p), FirstAuth(p)]) && Plain([])
    ensures ConfirmFrom(p, Initiator).messageType.SessionConfirm?
        && ConfirmFrom(p, Responder).messageType.SessionConfirm?
  {
  }

  /** Only the confirming runs have keys, and they are the pairing's. */
  lemma PendingOf(p: Pairing, purpose: Purpose, previous: Option<SessionId>, h: Half, step: Step, early: Option<Frame>)
    ensures Pending(Some(OfferRun(purpose, previous, h))) == None && Pending(Some(AnswerRun(p))) == None
        && Pending(None) == None
    ensures !step.ConfirmResp? ==> Pending(Some(InitiatorAt(p, step))) == None
    ensures !step.ConfirmInit? ==> Pending(Some(ResponderAt(p, step, early))) == None
    ensures Pending(Some(InitiatorAt(p, ConfirmResp))) == Some(SessionOf(p, Responder).sender)
    ensures Pending(Some(ResponderAt(p, ConfirmInit, early))) == Some(SessionOf(p, Initiator).sender)
  {
  }

  /** The session each side makes of a pairing. */
  function SessionOf(p: Pairing, role: Role): Session {
    NewSession(KeysFor(p), role, if role.Initiator? then p.r.identity else p.i.identity)
  }

  /** A read and the reply to it: both links survive. */
  lemma Exchange(x: Endpoint, y: Endpoint, y': Endpoint, xc: seq<seq<byte>>, yc: seq<seq<byte>>, run: Option<Run>,
      sends: seq<Frame>)
    requires Link(x, y, xc, false) && Link(y, x, yc, false)
    requires Moves(y, y', run, sends) && Plain(sends)
    requires x.outbox != [] && IsControl(x.outbox[0]) && NoConfirm(x.outbox)
    ensures Link(Popped(x), y', xc, false) && Link(y', Popped(x), yc, false)
    ensures Control(Popped(x).outbox) == Control(x.outbox)[1..] && Control(y'.outbox) == Control(y.outbox) + sends
    ensures x.outbox[0] == Control(x.outbox)[0]
  {
    ReaderReads(x, y, y', xc, run, sends);
    WriterMoves(y, y', x, yc, run, sends);
    PoppedReader(y', x, yc, false);
    PopControl(x.outbox);
    SentControl(y, y', run, sends);
  }

  /** A local move: both links survive. */
  lemma LocalMove(x: Endpoint, y: Endpoint, y': Endpoint, xc: seq<seq<byte>>, yc: seq<seq<byte>>, behind: bool,
      run: Option<Run>, sends: seq<Frame>)
    requires Link(x, y, xc, behind) && Link(y, x, yc, false)
    requires Moves(y, y', run, sends) && Plain(sends)
    requires NoConfirm(x.outbox) || Pending(run) == Pending(y.last.run)
    ensures Link(x, y', xc, behind) && Link(y', x, yc, false)
    ensures Control(y'.outbox) == Control(y.outbox) + sends
  {
    ReaderMoves(x, y, y', xc, behind, run, sends);
    WriterMoves(y, y', x, yc, run, sends);
    SentControl(y, y', run, sends);
  }
}
