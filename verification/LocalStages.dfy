/** What local input, DATA frames and a CLOSE do to the joint state. */
module LocalStages {
  import opened Protocol
  import opened Symbolic
  import opened Ratchet
  import opened Data
  import opened Machine
  import opened EngineInvariants
  import opened HonestSteps
  import opened InFlight
  import opened LocalSteps
  import opened TwoEngines
  import opened Stages

  // ------------------------------------------------------------------ nothing the peer notices

  /** Only what stages and links do not look at changed. */
  predicate SameCore(e: Endpoint, e': Endpoint) {
    Moves(e, e', e.last.run, [])
  }

  lemma IdleLinks(e: Endpoint, e': Endpoint, other: Endpoint, cs: seq<seq<byte>>, oc: seq<seq<byte>>, behind: bool,
      otherBehind: bool)
    requires SameCore(e, e') && Link(e, other, cs, behind) && Link(other, e, oc, otherBehind)
    ensures Link(e', other, cs, behind) && Link(other, e', oc, otherBehind) && e'.outbox == e.outbox
  {
    assert e.outbox + [] == e.outbox;
    assert ViewOf(e'.last) == ViewOf(e.last);
  }

  // ------------------------------------------------------------------ offering a rekey

  /** The endpoint offers a rekey of its active session. */
  predicate Offering(e: Endpoint, e': Endpoint) {
    e.last.phase.Open? && e.last.run.None? && e.last.active.Some?
    && Moves(e, e', Some(OfferRun(Purpose.Rekey, ActiveId(e.last), NextHalf(e.last))),
             [Commit(Purpose.Rekey, ActiveId(e.last), NextHalf(e.last))])
  }

  lemma OfferLinks(x: Endpoint, y: Endpoint, y': Endpoint, xc: seq<seq<byte>>, yc: seq<seq<byte>>, behind: bool)
    requires Link(x, y, xc, behind) && Link(y, x, yc, false) && Offering(y, y')
    ensures Link(x, y', xc, behind) && Link(y', x, yc, false)
    ensures Control(y'.outbox) == Control(y.outbox) + [Commit(Purpose.Rekey, ActiveId(y.last), NextHalf(y.last))]
  {
    hide Link, OfferRun, Commit, Moves;
    var h := NextHalf(y.last);
    var p := Pairing(Purpose.Rekey, ActiveId(y.last), h, h);
    PlainFrames(p, Purpose.Rekey, ActiveId(y.last), h);
    PendingOf(p, Purpose.Rekey, ActiveId(y.last), h, Sas, None);
    LocalMove(x, y, y', xc, yc, behind, Some(OfferRun(Purpose.Rekey, ActiveId(y.last), h)),
        [Commit(Purpose.Rekey, ActiveId(y.last), h)]);
  }

  /** The initiator of a stage has no run only when all is quiet. */
  lemma FirstOffers(x: Endpoint, x': Endpoint, y: Endpoint, g: Stage, xc: seq<seq<byte>>,
      yc: seq<seq<byte>>) returns (g': Stage)
    requires Joint(x, y, g, xc, yc) && Offering(x, x')
    ensures g.Quiet? && g' == Offered(Purpose.Rekey, ActiveId(x.last), NextHalf(x.last)) && Joint(x', y, g', xc, yc)
  {
    hide Link, OfferRun, Commit, Answer, AnswerRun, InitiatorAt, ResponderAt;
    g' := Offered(Purpose.Rekey, ActiveId(x.last), NextHalf(x.last));
    OfferLinks(y, x, x', yc, xc, false);
    MovesCore(x, x', x'.last.run, [Commit(Purpose.Rekey, ActiveId(x.last), NextHalf(x.last))]);
  }

  /** When all is quiet the sides can be exchanged. */
  lemma QuietSwap(x: Endpoint, y: Endpoint, xc: seq<seq<byte>>, yc: seq<seq<byte>>)
    requires Joint(x, y, Quiet, xc, yc)
    ensures Joint(y, x, Quiet, yc, xc)
  {
    hide Good;
  }

  /** An offer that crosses another one is a glare, whose winner has the greater identity. */
  lemma SecondCrosses(x: Endpoint, y: Endpoint, y': Endpoint, g: Stage, xc: seq<seq<byte>>, yc: seq<seq<byte>>)
      returns (g': Stage, swapped: bool)
    requires Joint(x, y, g, xc, yc) && Offering(y, y') && g.Offered?
    ensures g'.Glare? && !g'.heard && swapped == (x.last.identity < y.last.identity)
    ensures if swapped then Joint(y', x, g', yc, xc) else Joint(x, y', g', xc, yc)
  {
    hide Link, OfferRun, Commit;
    var h := NextHalf(y.last);
    swapped := x.last.identity < y.last.identity;
    g' := if swapped then Glare(g.previous.value, h, g.i, false) else Glare(g.previous.value, g.i, h, false);
    OfferLinks(x, y, y', xc, yc, false);
    MovesCore(y, y', y'.last.run, [Commit(Purpose.Rekey, ActiveId(y.last), h)]);
  }

  /** A responder that has promoted may offer the next rekey right behind its confirmation. */
  lemma PromotedOffers(x: Endpoint, y: Endpoint, y': Endpoint, g: Stage, xc: seq<seq<byte>>,
      yc: seq<seq<byte>>) returns (g': Stage)
    requires Joint(x, y, g, xc, yc) && Offering(y, y') && g.Promoted?
    ensures g' == Promoted(g.p, Some(NextHalf(y.last))) && Joint(x, y', g', xc, yc)
  {
    hide Link, OfferRun, Commit, ConfirmFrom, InitiatorAt, KeysFor, NewSession;
    var h := NextHalf(y.last);
    g' := Promoted(g.p, Some(h));
    OfferLinks(x, y, y', xc, yc, true);
    MovesCore(y, y', y'.last.run, [Commit(Purpose.Rekey, ActiveId(y.last), h)]);
  }

  /** Any offer the second endpoint of a stage can make. */
  lemma SecondOffers(x: Endpoint, y: Endpoint, y': Endpoint, g: Stage, xc: seq<seq<byte>>, yc: seq<seq<byte>>)
      returns (g': Stage, swapped: bool)
    requires Joint(x, y, g, xc, yc) && Offering(y, y')
    ensures if swapped then Joint(y', x, g', yc, xc) else Joint(x, y', g', xc, yc)
    ensures g.Offered? ==> g'.Glare? && !g'.heard && swapped == (x.last.identity < y.last.identity)
  {
    hide Link, OfferRun, Commit, Answer, AnswerRun, InitiatorAt, ResponderAt, Offering;
    RunOfOffering(y, y');
    if g.Quiet? {
      QuietSwap(x, y, xc, yc);
      g' := FirstOffers(y, y', x, g, yc, xc);
      swapped := true;
    } else if g.Offered? {
      g', swapped := SecondCrosses(x, y, y', g, xc, yc);
    } else {
      g' := PromotedOffers(x, y, y', g, xc, yc);
      swapped := false;
    }
  }

  lemma RunOfOffering(e: Endpoint, e': Endpoint)
    requires Offering(e, e')
    ensures e.last.run.None? && e.last.phase.Open?
  {
  }

  // ------------------------------------------------------------------ the user's answer

  lemma AnswerMoves(e: Endpoint, run: Run, sends: seq<Frame>)
    requires Party(e) && !Over(e) && Becomes(e.last, OnSas(e.last, true), Some(run), sends, [])
    ensures Moves(e, Applied(e, SasDecision(true)), Some(run), sends) && Applied(e, SasDecision(true)).log == e.log
  {
    hide OnSas, Valid, Sound, Becomes, Applied, Moves;
    PartyBasics(e);
    assert Handle(e.last, SasDecision(true)) == OnSas(e.last, true);
    AppliedMoves(e, SasDecision(true), Some(run), sends, []);
  }

  lemma PartyBasics(e: Endpoint)
    requires Party(e) && !Over(e)
    ensures e.last.out == [] && e.last.(out := []) == e.last && e.engine == e.last && !e.last.phase.Ended?
        && !e.last.phase.Idle?
    ensures Valid(e.last) && Sound(e.last)
  {
  }

  lemma FirstApproves(x: Endpoint, y: Endpoint, g: Stage, xc: seq<seq<byte>>, yc: seq<seq<byte>>) returns (g': Stage)
    requires Joint(x, y, g, xc, yc) && Party(x) && !Over(x) && AwaitsUser(x.last)
    ensures Joint(Applied(x, SasDecision(true)), y, g', xc, yc)
    ensures (g.Revealed? || g.Shared?) && !g.approved && g.p.purpose.Initial? && g' == g.(approved := true)
    ensures Applied(x, SasDecision(true)).log == x.log && !Over(Applied(x, SasDecision(true)))
  {
    hide Link, Applied, OnSas, Party, Valid, Sound, RevealFrame, FirstAuth, AnswerRun, ResponderAt, Becomes, Moves;
    var p := g.p;
    g' := g.(approved := true);
    BetweenHosts(x.last, y.last, p);
    PlainFrames(p, p.purpose, p.previous, p.i);
    PendingOf(p, p.purpose, p.previous, p.i, Sas, None);
    PendingOf(p, p.purpose, p.previous, p.i, AuthResp, None);
    InitiatorApproves(x.last, p);
    AnswerMoves(x, InitiatorAt(p, AuthResp), [FirstAuth(p)]);
    var x' := Applied(x, SasDecision(true));
    LocalMove(y, x, x', yc, xc, false, Some(InitiatorAt(p, AuthResp)), [FirstAuth(p)]);
    MovesCore(x, x', Some(InitiatorAt(p, AuthResp)), [FirstAuth(p)]);
    assert InStage(x'.last, y.last, Control(x'.outbox), Control(y.outbox), g');
  }

  lemma SecondApproves(x: Endpoint, y: Endpoint, g: Stage, xc: seq<seq<byte>>, yc: seq<seq<byte>>) returns (g': Stage)
    requires Joint(x, y, g, xc, yc) && Party(y) && !Over(y) && AwaitsUser(y.last)
    ensures Joint(x, Applied(y, SasDecision(true)), g', xc, yc)
    ensures g.Shared? && !g.accepted && g.p.purpose.Initial?
        && g' == if g.early then Signed(g.p) else g.(accepted := true)
    ensures Applied(y, SasDecision(true)).log == y.log && !Over(Applied(y, SasDecision(true)))
  {
    WaitsInShared(x, y, g, xc, yc);
    if g.early {
      g' := BufferedApproves(x, y, g, xc, yc);
    } else {
      g' := PlainApproves(x, y, g, xc, yc);
    }
  }

  lemma WaitsInShared(x: Endpoint, y: Endpoint, g: Stage, xc: seq<seq<byte>>, yc: seq<seq<byte>>)
    requires Joint(x, y, g, xc, yc) && AwaitsUser(y.last)
    ensures g.Shared?
  {
    hide Link, InitiatorAt, FirstAuth, SecondAuth, RevealFrame, ConfirmFrom, Answer, Commit, KeysFor;
  }

  lemma PlainApproves(x: Endpoint, y: Endpoint, g: Stage, xc: seq<seq<byte>>, yc: seq<seq<byte>>) returns (g': Stage)
    requires Joint(x, y, g, xc, yc) && Party(y) && !Over(y) && AwaitsUser(y.last) && g.Shared? && !g.early
    ensures Joint(x, Applied(y, SasDecision(true)), g', xc, yc)
    ensures !g.accepted && g.p.purpose.Initial? && g' == g.(accepted := true)
    ensures Applied(y, SasDecision(true)).log == y.log && !Over(Applied(y, SasDecision(true)))
  {
    hide Link, Applied, OnSas, Party, Valid, Sound, FirstAuth, SecondAuth, InitiatorAt, Becomes, Moves;
    var p := g.p;
    g' := g.(accepted := true);
    BetweenHosts(x.last, y.last, p);
    PlainFrames(p, p.purpose, p.previous, p.i);
    PlainHasNoConfirm(x.outbox);
    ResponderApproves(y.last, p);
    var run := ResponderAt(p, AuthInit, None);
    AnswerMoves(y, run, []);
    var y' := Applied(y, SasDecision(true));
    LocalMove(x, y, y', xc, yc, false, Some(run), []);
    MovesCore(y, y', Some(run), []);
  }

  /** With the AUTH already buffered, the approval is answered at once. */
  lemma BufferedApproves(x: Endpoint, y: Endpoint, g: Stage, xc: seq<seq<byte>>, yc: seq<seq<byte>>) returns (g': Stage)
    requires Joint(x, y, g, xc, yc) && Party(y) && !Over(y) && AwaitsUser(y.last) && g.Shared? && g.early
    ensures Joint(x, Applied(y, SasDecision(true)), g', xc, yc)
    ensures !g.accepted && g.p.purpose.Initial? && g' == Signed(g.p)
    ensures Applied(y, SasDecision(true)).log == y.log && !Over(Applied(y, SasDecision(true)))
  {
    hide Link, Applied, OnSas, Party, Valid, Sound, FirstAuth, SecondAuth, InitiatorAt, Becomes, Moves;
    var p := g.p;
    g' := Signed(p);
    BetweenHosts(x.last, y.last, p);
    PlainFrames(p, p.purpose, p.previous, p.i);
    PlainHasNoConfirm(x.outbox);
    ResponderApprovesBuffered(y.last, p);
    var run := ResponderAt(p, ConfirmInit, None);
    AnswerMoves(y, run, [SecondAuth(p)]);
    var y' := Applied(y, SasDecision(true));
    LocalMove(x, y, y', xc, yc, false, Some(run), [SecondAuth(p)]);
    MovesCore(y, y', Some(run), [SecondAuth(p)]);
  }

  // ------------------------------------------------------------------ leaving

  /** The endpoint ended; at most a CLOSE follows what it had written. */
  ghost predicate Leaving(e: Endpoint, e': Endpoint) {
    !Over(e) && Over(e') && e'.last == e.last && e'.sent == e.sent && e'.delivered == e.delivered
    && (e'.outbox == e.outbox || exists f: Frame :: f.messageType.Close? && e'.outbox == e.outbox + [f])
  }

  lemma LeavingLinks(e: Endpoint, e': Endpoint, other: Endpoint, cs: seq<seq<byte>>, oc: seq<seq<byte>>, behind: bool,
      otherBehind: bool)
    requires Leaving(e, e') && Link(e, other, cs, behind) && Link(other, e, oc, otherBehind)
    ensures Link(e', other, cs, behind) && Link(other, e', oc, otherBehind) && Control(e'.outbox) == Control(e.outbox)
  {
    if e'.outbox == e.outbox {
      Leaves(e.outbox, ViewOf(other.last), cs, TipOf(e, behind), EncodeClose(ClosePayload(None, Normal)));
    } else {
      var f: Frame :| f.messageType.Close? && e'.outbox == e.outbox + [f];
      Leaves(e.outbox, ViewOf(other.last), cs, TipOf(e, behind), f);
      ControlAppend(e.outbox, [f]);
      assert [f][1..] == [];
      assert Control(e.outbox) + [] == Control(e.outbox);
    }
  }

  lemma FirstLeaves(x: Endpoint, x': Endpoint, y: Endpoint, g: Stage, xc: seq<seq<byte>>, yc: seq<seq<byte>>)
    requires Joint(x, y, g, xc, yc) && Leaving(x, x')
    ensures Joint(x', y, g, xc, yc)
  {
    hide Link, InStage;
    LeavingLinks(x, x', y, xc, yc, Lags(g), false);
  }

  lemma SecondLeaves(x: Endpoint, y: Endpoint, y': Endpoint, g: Stage, xc: seq<seq<byte>>, yc: seq<seq<byte>>)
    requires Joint(x, y, g, xc, yc) && Leaving(y, y')
    ensures Joint(x, y', g, xc, yc)
  {
    hide Link, InStage;
    LeavingLinks(y, y', x, yc, xc, false, Lags(g));
  }

  // ------------------------------------------------------------------ writing and reading DATA

  /** The endpoint with one more content written on its active session. */
  function Written(e: Endpoint, content: seq<byte>): Endpoint
    requires e.last.active.Some? && |content| <= MAX_CONTENT
  {
    var w := Wrote(e.last, content).(out := []);
    Endpoint(w, w, e.outbox + [SealedFrame(e.last.active.value.sender, content)], e.sent
        + [content], e.delivered, e.log)
  }

  predicate CanWrite(e: Endpoint, content: seq<byte>) {
    !Over(e) && e.last.phase.Open? && e.last.active.Some? && |content| <= MAX_CONTENT
        && e.last.active.value.sender.counter < U64_MAX
  }

  /** Sessions moved on along their chains; everything a stage looks at is as it was. */
  predicate Advanced(m: Machine, r: Machine) {
    SameParty(m, r) && r.phase == m.phase && r.run == m.run
    && (r.active.Some? <==> m.active.Some?) && (r.draining.Some? ==> m.draining.Some?)
    && (m.active.Some? ==>
          r.active.value.id == m.active.value.id && r.active.value.peer == m.active.value.peer
          && r.active.value.sender.direction == m.active.value.sender.direction
          && r.active.value.receiver.direction == m.active.value.receiver.direction)
  }

  lemma StageAdvances(x: Machine, y: Machine, x': Machine, y': Machine, xs: seq<Frame>, ys: seq<Frame>, g: Stage)
    requires InStage(x, y, xs, ys, g) && Advanced(x, x') && Advanced(y, y')
    ensures InStage(x', y', xs, ys, g)
  {
    hide OfferRun, Commit, Answer, AnswerRun, InitiatorAt, ResponderAt, RevealFrame, FirstAuth, SecondAuth, ConfirmFrom,
      KeysFor, NewSession;
  }

  lemma FirstIdles(x: Endpoint, x': Endpoint, y: Endpoint, g: Stage, xc: seq<seq<byte>>, yc: seq<seq<byte>>)
    requires Joint(x, y, g, xc, yc) && SameCore(x, x')
    ensures Joint(x', y, g, xc, yc)
  {
    hide Link, InStage;
    IdleLinks(x, x', y, xc, yc, Lags(g), false);
    StageAdvances(x.last, y.last, x'.last, y.last, Control(x.outbox), Control(y.outbox), g);
  }

  lemma SecondIdles(x: Endpoint, y: Endpoint, y': Endpoint, g: Stage, xc: seq<seq<byte>>, yc: seq<seq<byte>>)
    requires Joint(x, y, g, xc, yc) && SameCore(y, y')
    ensures Joint(x, y', g, xc, yc)
  {
    hide Link, InStage;
    IdleLinks(y, y', x, yc, xc, false, Lags(g));
    StageAdvances(x.last, y.last, x.last, y'.last, Control(x.outbox), Control(y.outbox), g);
  }

  lemma WrittenLinks(e: Endpoint, other: Endpoint, content: seq<byte>, cs: seq<seq<byte>>, oc: seq<seq<byte>>,
      behind: bool, otherBehind: bool)
    requires CanWrite(e, content) && Link(e, other, cs, behind) && Link(other, e, oc, otherBehind)
    ensures var e' := Written(e, content);
            Link(e', other, cs + [content], behind) && Link(other, e', oc, otherBehind)
                && Control(e'.outbox) == Control(e.outbox)
            && Advanced(e.last, e'.last) && !Over(e')
  {
    hide SealedFrame;
    var f := SealedFrame(e.last.active.value.sender, content);
    CarriedIsData(e.last.active.value.sender, f, content);
    AppendData(e.outbox, ViewOf(other.last), cs, TipOf(e, behind), f, content);
    assert other.delivered + (cs + [content]) == (other.delivered + cs) + [content];
    ControlAppend(e.outbox, [f]);
    assert [f][1..] == [];
    assert Control(e.outbox) + [] == Control(e.outbox);
  }

  lemma FirstWrites(x: Endpoint, y: Endpoint, content: seq<byte>, g: Stage, xc: seq<seq<byte>>, yc: seq<seq<byte>>)
    requires Joint(x, y, g, xc, yc) && CanWrite(x, content)
    ensures Joint(Written(x, content), y, g, xc + [content], yc)
  {
    hide Link, InStage;
    WrittenLinks(x, y, content, xc, yc, Lags(g), false);
    var x' := Written(x, content);
    StageAdvances(x.last, y.last, x'.last, y.last, Control(x.outbox), Control(y.outbox), g);
  }

  lemma SecondWrites(x: Endpoint, y: Endpoint, content: seq<byte>, g: Stage, xc: seq<seq<byte>>, yc: seq<seq<byte>>)
    requires Joint(x, y, g, xc, yc) && CanWrite(y, content)
    ensures Joint(x, Written(y, content), g, xc, yc + [content])
  {
    hide Link, InStage;
    WrittenLinks(y, x, content, yc, xc, false, Lags(g));
    var y' := Written(y, content);
    StageAdvances(x.last, y.last, x.last, y'.last, Control(x.outbox), Control(y.outbox), g);
  }

  // Reading.

  /** The next content of the channel, taken on the active session. */
  function TakenActive(e: Endpoint, f: Frame, content: seq<byte>): Endpoint
    requires e.last.active.Some?
  {
    var w := Took(e.last, f, content).(out := []);
    Endpoint(w, w, e.outbox, e.sent, e.delivered + [content], e.log)
  }

  function TakenDraining(e: Endpoint, f: Frame, content: seq<byte>): Endpoint
    requires e.last.draining.Some?
  {
    var w := TookLate(e.last, f, content).(out := []);
    Endpoint(w, w, e.outbox, e.sent, e.delivered + [content], e.log)
  }

  /** The head of the channel is the content that the reader's active session awaits. */
  ghost predicate HeadActive(from: Endpoint, e: Endpoint, cs: seq<seq<byte>>, behind: bool) {
    from.outbox != [] && cs != [] && from.outbox[0].messageType.Data?
    && GoodActive(from.outbox, ViewOf(e.last), cs, TipOf(from, behind))
  }

  ghost predicate HeadDraining(from: Endpoint, e: Endpoint, cs: seq<seq<byte>>, behind: bool) {
    from.outbox != [] && cs != [] && from.outbox[0].messageType.Data?
    && GoodDrain(from.outbox, ViewOf(e.last), cs, TipOf(from, behind))
  }

  lemma TakesActive(from: Endpoint, e: Endpoint, cs: seq<seq<byte>>, behind: bool)
    requires Link(from, e, cs, behind) && HeadActive(from, e, cs, behind) && Party(e) && !Over(e)
    requires behind && !Over(from) ==> !NoConfirm(from.outbox)
    ensures e.last.active.Some? && Carries(Expected(e.last.active.value.receiver), from.outbox[0], cs[0])
    ensures var e' := TakenActive(e, from.outbox[0], cs[0]);
            Link(Popped(from), e', cs[1..], behind) && Advanced(e.last, e'.last) && Sound(e'.last) && !Over(e')
            && e'.last.active.value.sender == e.last.active.value.sender && e'.last.draining == e.last.draining
  {
    hide Decrypt, Valid, SealedFrame;
    var f, v := from.outbox[0], ViewOf(e.last);
    ReceivesExpected(e.last.active.value.receiver, f, cs[0]);
    ChainGoesOn(e.last.active.value.id, Expected(e.last.active.value.receiver));
    KeepsDirection(e.last.active.value.receiver, f);
    var v' := v.(active := Some(AfterEncrypt(v.active.value)));
    DataPopControl(from.outbox);
    assert Good(from.outbox[1..], v'.(drain := None), cs[1..], TipOf(from, behind));
    DrainHarmless(from.outbox[1..], v', cs[1..], TipOf(from, behind));
    assert e.delivered + cs == (e.delivered + [cs[0]]) + cs[1..];
    NotEnded(e);
    assert ViewOf(TakenActive(e, f, cs[0]).last) == v';
  }

  lemma NotEnded(e: Endpoint)
    requires Party(e)
    ensures !e.last.phase.Ended?
  {
  }

  lemma KeepsDirection(r: Receiver, f: Frame)
    ensures Decrypt(r, f).0.direction == r.direction && Decrypt(r, f).0.sessionId == r.sessionId
  {
  }

  lemma DataPopControl(chan: seq<Frame>)
    requires chan != [] && !IsControl(chan[0])
    ensures Control(chan[1..]) == Control(chan)
  {
  }

  lemma TakesDraining(from: Endpoint, e: Endpoint, cs: seq<seq<byte>>, behind: bool)
    requires Link(from, e, cs, behind) && HeadDraining(from, e, cs, behind) && Party(e) && !Over(e)
    ensures e.last.draining.Some? && Carries(Expected(e.last.draining.value.receiver), from.outbox[0], cs[0])
    ensures var e' := TakenDraining(e, from.outbox[0], cs[0]);
            Link(Popped(from), e', cs[1..], behind) && Advanced(e.last, e'.last) && Sound(e'.last) && !Over(e')
            && e'.last.active == e.last.active && e'.last.draining.Some?
                && e'.last.draining.value.id == e.last.draining.value.id
  {
    hide Decrypt, Valid, SealedFrame;
    var f, v := from.outbox[0], ViewOf(e.last);
    ReceivesExpected(e.last.draining.value.receiver, f, cs[0]);
    ChainGoesOn(e.last.draining.value.id, Expected(e.last.draining.value.receiver));
    KeepsDirection(e.last.draining.value.receiver, f);
    assert e.delivered + cs == (e.delivered + [cs[0]]) + cs[1..];
    NotEnded(e);
    assert ViewOf(TakenDraining(e, f, cs[0]).last) == v.(drain := Some(AfterEncrypt(v.drain.value)));
  }

  /** The other direction does not notice. */
  lemma TakenWriter(from: Endpoint, e: Endpoint, e': Endpoint, cs: seq<seq<byte>>, behind: bool)
    requires Link(e, from, cs, behind) && from.outbox != []
    requires e'.outbox == e.outbox && e'.sent == e.sent && SenderOf(e'.last) == SenderOf(e.last) && !Over(e)
        && !Over(e')
    ensures Link(e', Popped(from), cs, behind)
  {
  }

  lemma HeadCases(from: Endpoint, e: Endpoint, cs: seq<seq<byte>>, behind: bool)
    requires Link(from, e, cs, behind) && from.outbox != [] && from.outbox[0].messageType.Data?
    ensures HeadActive(from, e, cs, behind) || HeadDraining(from, e, cs, behind)
  {
  }

  /** Once the responder has promoted, nothing under the new session reaches it while the initiator is behind. */
  lemma NothingNewYet(x: Endpoint, y: Endpoint, g: Stage, xc: seq<seq<byte>>, yc: seq<seq<byte>>)
    requires Joint(x, y, g, xc, yc) && g.Promoted? && !Over(x) && x.outbox != []
    ensures !HeadActive(x, y, xc, true)
  {
    hide InStage;
    if HeadActive(x, y, xc, true) {
      var v := ViewOf(y.last);
      StageControl(x, y, g, xc, yc);
      Uncontrolled(x.outbox);
      if SenderOf(x.last).Some? {
        NotBehind(x.outbox[1..], v.(active := Some(AfterEncrypt(v.active.value)), drain := None), xc[1..],
            SenderOf(x.last).value);
      }
    }
  }

  lemma StageControl(x: Endpoint, y: Endpoint, g: Stage, xc: seq<seq<byte>>, yc: seq<seq<byte>>)
    requires Joint(x, y, g, xc, yc)
    ensures g.Promoted? ==> Control(x.outbox) == []
    ensures g.Confirmed? ==> !NoConfirm(x.outbox)
  {
    hide Link, KeysFor, InitiatorAt, ResponderAt, AnswerRun, OfferRun;
    if g.Confirmed? {
      assert ConfirmFrom(g.p, Initiator) in Control(x.outbox);
    }
  }

  /** The responder takes a content from the channel. */
  lemma SecondTakes(x: Endpoint, y: Endpoint, g: Stage, xc: seq<seq<byte>>, yc: seq<seq<byte>>) returns (y1: Endpoint)
    requires Joint(x, y, g, xc, yc) && Party(y) && !Over(y) && x.outbox != [] && x.outbox[0].messageType.Data?
    ensures xc != [] && Sound(y1.last) && Joint(Popped(x), y1, g, xc[1..], yc)
    ensures TakenBy(x, y, y1, xc)
  {
    hide Good, InStage, Decrypt, Valid, Sound, Advanced, Link;
    HeadCases(x, y, xc, Lags(g));
    DataPopControl(x.outbox);
    if HeadActive(x, y, xc, Lags(g)) {
      y1 := SecondTakesActive(x, y, g, xc, yc);
    } else {
      TakesDraining(x, y, xc, Lags(g));
      y1 := TakenDraining(y, x.outbox[0], xc[0]);
      AdvancedSelf(x.last);
      TakenWriter(x, y, y1, yc, false);
      StageAdvances(x.last, y.last, x.last, y1.last, Control(x.outbox), Control(y.outbox), g);
    }
  }

  lemma AdvancedSelf(m: Machine)
    ensures Advanced(m, m)
  {
  }

  lemma SecondTakesActive(x: Endpoint, y: Endpoint, g: Stage, xc: seq<seq<byte>>,
      yc: seq<seq<byte>>) returns (y1: Endpoint)
    requires Joint(x, y, g, xc, yc) && Party(y) && !Over(y) && HeadActive(x, y, xc, Lags(g))
    ensures Sound(y1.last) && Joint(Popped(x), y1, g, xc[1..], yc) && TakenBy(x, y, y1, xc)
  {
    hide Good, InStage, Decrypt, Valid, Sound, Advanced, Link;
    StageControl(x, y, g, xc, yc);
    DataPopControl(x.outbox);
    if g.Promoted? && !Over(x) {
      NothingNewYet(x, y, g, xc, yc);
    }
    TakesActive(x, y, xc, Lags(g));
    y1 := TakenActive(y, x.outbox[0], xc[0]);
    AdvancedSelf(x.last);
    TakenWriter(x, y, y1, yc, false);
    StageAdvances(x.last, y.last, x.last, y1.last, Control(x.outbox), Control(y.outbox), g);
  }

  /** The reader's state once it has taken the head of the channel, on whichever session it belongs to. */
  ghost predicate TakenBy(from: Endpoint, e: Endpoint, e1: Endpoint, cs: seq<seq<byte>>) {
    from.outbox != [] && cs != []
    && ((e.last.active.Some? && Carries(Expected(e.last.active.value.receiver), from.outbox[0], cs[0])
         && e1 == TakenActive(e, from.outbox[0], cs[0]))
        || (e.last.draining.Some? && Carries(Expected(e.last.draining.value.receiver), from.outbox[0], cs[0])
            && e1 == TakenDraining(e, from.outbox[0], cs[0])))
  }

  /** The initiator takes a content from the channel. */
  lemma FirstTakes(x: Endpoint, y: Endpoint, g: Stage, xc: seq<seq<byte>>, yc: seq<seq<byte>>) returns (x1: Endpoint)
    requires Joint(x, y, g, xc, yc) && Party(x) && !Over(x) && y.outbox != [] && y.outbox[0].messageType.Data?
    ensures yc != [] && Sound(x1.last) && Joint(x1, Popped(y), g, xc, yc[1..]) && TakenBy(y, x, x1, yc)
  {
    hide Good, InStage, Decrypt, Valid, Sound, Advanced, Link;
    HeadCases(y, x, yc, false);
    DataPopControl(y.outbox);
    AdvancedSelf(y.last);
    if HeadActive(y, x, yc, false) {
      TakesActive(y, x, yc, false);
      x1 := TakenActive(x, y.outbox[0], yc[0]);
    } else {
      TakesDraining(y, x, yc, false);
      x1 := TakenDraining(x, y.outbox[0], yc[0]);
    }
    TakenWriter(y, x, x1, xc, Lags(g));
    SameIds(x.last, x1.last);
    StageAdvances(x.last, y.last, x1.last, y.last, Control(x.outbox), Control(y.outbox), g);
  }

  lemma SameIds(m: Machine, r: Machine)
    requires Advanced(m, r)
    ensures r.identity == m.identity && (m.active.Some? ==> r.active.Some? && r.active.value.id == m.active.value.id)
  {
  }

  // ------------------------------------------------------------------ reading a CLOSE

  /** The reader carried on after a CLOSE, at most without its draining session. */
  predicate Dropping(e: Endpoint, e': Endpoint) {
    !Over(e) && !Over(e') && SameParty(e.last, e'.last) && e'.last.phase == e.last.phase && e'.last.run == e.last.run
    && e'.last.active == e.last.active && (e'.last.draining == e.last.draining || e'.last.draining.None?)
    && e'.outbox == e.outbox && e'.sent == e.sent && e'.delivered == e.delivered
  }

  lemma LastIsClose(from: Endpoint, e: Endpoint, cs: seq<seq<byte>>, behind: bool)
    requires Link(from, e, cs, behind) && from.outbox != [] && from.outbox[0].messageType.Close?
    ensures Over(from) && cs == [] && from.outbox[1..] == [] && Control(from.outbox) == []
  {
  }

  lemma DroppingLinks(from: Endpoint, e: Endpoint, e': Endpoint, cs: seq<seq<byte>>, ec: seq<seq<byte>>, behind: bool,
      eBehind: bool)
    requires Link(from, e, cs, behind) && Link(e, from, ec, eBehind) && Dropping(e, e')
    requires from.outbox != [] && from.outbox[0].messageType.Close?
    ensures Link(Popped(from), e', cs, behind) && Link(e', Popped(from), ec, eBehind) && Advanced(e.last, e'.last)
  {
    LastIsClose(from, e, cs, behind);
  }

  lemma SecondDrops(x: Endpoint, y: Endpoint, y': Endpoint, g: Stage, xc: seq<seq<byte>>, yc: seq<seq<byte>>)
    requires Joint(x, y, g, xc, yc) && Dropping(y, y') && x.outbox != [] && x.outbox[0].messageType.Close?
    ensures Joint(Popped(x), y', g, xc, yc)
  {
    hide Good, InStage, Link, Dropping, Advanced;
    LastIsClose(x, y, xc, Lags(g));
    DroppingLinks(x, y, y', xc, yc, Lags(g), false);
    DropKeepsOutbox(y, y');
    AdvancedSelf(x.last);
    StageAdvances(x.last, y.last, x.last, y'.last, Control(x.outbox), Control(y.outbox), g);
    assert Control([]) == [];
  }

  lemma DropKeepsOutbox(e: Endpoint, e': Endpoint)
    requires Dropping(e, e')
    ensures e'.outbox == e.outbox && Over(e') == Over(e) && e'.last.active == e.last.active
        && e'.last.identity == e.last.identity
  {
  }

  lemma FirstDrops(x: Endpoint, x': Endpoint, y: Endpoint, g: Stage, xc: seq<seq<byte>>, yc: seq<seq<byte>>)
    requires Joint(x, y, g, xc, yc) && Dropping(x, x') && y.outbox != [] && y.outbox[0].messageType.Close?
    ensures Joint(x', Popped(y), g, xc, yc)
  {
    hide Good, InStage, Link, Dropping, Advanced;
    LastIsClose(y, x, yc, false);
    DroppingLinks(y, x, x', yc, xc, false, Lags(g));
    DropKeepsOutbox(x, x');
    AdvancedSelf(y.last);
    StageAdvances(x.last, y.last, x'.last, y.last, Control(x.outbox), Control(y.outbox), g);
    assert Control([]) == [];
  }

  /** A reader of a CLOSE ends without a word, or carries on. */
  lemma CloseOutcome(e: Endpoint, f: Frame)
    requires Party(e) && !Over(e) && f.messageType.Close?
    ensures var e' := Applied(e, FrameReceived(f));
            Leaving(e, e') || Dropping(e, e')
  {
    hide Terminate, Cancel, Valid, Sound;
    FrameInput(e, f);
    var m := e.last;
    EndsAll(m, ProtocolViolation, Some(ProtocolError));
    if DecodeClose(f).Ok? {
      EndsAll(m, PeerUnauthenticated(DecodeClose(f).value.reason), None);
    }
    var r := OnFrame(m, f);
    assert Sends([]) == [] && Delivers([]) == [];
    assert e.sent + [] == e.sent && e.delivered + [] == e.delivered && e.outbox + [] == e.outbox;
    if Ends(m, r) {
      EndsLeaves(e, FrameReceived(f));
    }
  }

  lemma EndsLeaves(e: Endpoint, input: Input)
    requires Party(e) && !Over(e) && Ends(e.last, Handle(e.last, input))
    ensures Leaving(e, Applied(e, input))
  {
    hide Handle, Valid, Sound;
    var r := Handle(e.last, input);
    assert Sends([]) == [] && Delivers([]) == [];
    assert e.sent + [] == e.sent && e.delivered + [] == e.delivered && e.outbox + [] == e.outbox;
    if Sends(r.out) != [] {
      var f: Frame :| f.messageType.Close? && Sends(r.out) == Sends(e.last.out) + [f];
      assert Sends(r.out) == [f];
      assert Applied(e, input).outbox == e.outbox + [f];
    }
  }
}
