/** Whole runs of two honest engines: lossless rekeys and session agreement. */
module SystemRuns {
  import opened Protocol
  import opened Symbolic
  import opened Ratchet
  import opened Data
  import opened Machine
  import opened EngineInvariants
  import opened HonestSteps
  import opened InFlight
  import opened LocalSteps
  import opened TwoEngines
  import opened Stages
  import opened LocalStages

  /** The joint invariant with the roles in either order. */
  ghost predicate Either(x: Endpoint, y: Endpoint, g: Stage, xc: seq<seq<byte>>, yc: seq<seq<byte>>, swapped: bool) {
    if swapped then Joint(y, x, g, yc, xc) else Joint(x, y, g, xc, yc)
  }

  // ------------------------------------------------------------------ outcomes at one endpoint

  /** What an endpoint does beyond DATA: nothing visible, or an offer. */
  predicate Settles(e: Endpoint, e': Endpoint) {
    SameCore(e, e') || Offering(e, e')
  }

  lemma FirstSettles(x: Endpoint, x': Endpoint, y: Endpoint, g: Stage, xc: seq<seq<byte>>,
      yc: seq<seq<byte>>) returns (g': Stage)
    requires Joint(x, y, g, xc, yc) && Settles(x, x')
    ensures Joint(x', y, g', xc, yc)
  {
    hide Joint, SameCore, Offering;
    if SameCore(x, x') {
      FirstIdles(x, x', y, g, xc, yc);
      g' := g;
    } else {
      g' := FirstOffers(x, x', y, g, xc, yc);
    }
  }

  lemma SecondSettles(x: Endpoint, y: Endpoint, y': Endpoint, g: Stage, xc: seq<seq<byte>>, yc: seq<seq<byte>>)
      returns (g': Stage, swapped: bool)
    requires Joint(x, y, g, xc, yc) && Settles(y, y')
    ensures Either(x, y', g', xc, yc, swapped)
  {
    hide Joint, SameCore, Offering;
    if SameCore(y, y') {
      SecondIdles(x, y, y', g, xc, yc);
      g', swapped := g, false;
    } else {
      g', swapped := SecondOffers(x, y, y', g, xc, yc);
    }
  }

  lemma IdlesCore(e: Endpoint, e1: Endpoint, e': Endpoint, m: Machine, r: Machine)
    requires !Over(e1) && !Over(e') && m.(out := []) == e1.last && e'.last == r.(out := [])
    requires Idles(m, r) || Starts(m, r)
    requires e1.outbox == e.outbox + Sends(m.out) && e'.outbox == e.outbox + Sends(r.out)
    requires e'.sent == e1.sent && e'.delivered == e1.delivered
    ensures Settles(e1, e')
  {
    if Idles(m, r) {
      assert e1.outbox + [] == e1.outbox;
    } else {
      assert (e.outbox + Sends(m.out)) + [Commit(Purpose.Rekey, ActiveId(m), NextHalf(m))]
          == e.outbox + (Sends(m.out) + [Commit(Purpose.Rekey, ActiveId(m), NextHalf(m))]);
    }
  }

  lemma LocalCases(e: Endpoint, input: Input)
    requires Party(e) && !Over(e) && Permitted(e.engine, input) && !(input == SasDecision(true) && AwaitsUser(e.last))
    ensures var e' := Applied(e, input);
            Settles(e, e') || Leaving(e, e')
            || (input.LocalSend? && CanWrite(e, input.content) && Settles(Written(e, input.content), e'))
  {
    hide Handle, Valid, Sound, Idles, Starts, Ends, Settles, Leaving, SealedFrame, Commit;
    var m := e.last;
    var r := Handle(m, input);
    PartyBasics(e);
    LocalOutcome(m, input);
    assert Sends([]) == [] && Delivers([]) == [];
    assert e.sent + [] == e.sent && e.delivered + [] == e.delivered && e.outbox + [] == e.outbox;
    if Ends(m, r) {
      EndsLeaves(e, input);
    } else if Idles(m, r) || Starts(m, r) {
      NotWritten(m, r, input);
      IdlesCore(e, e, Applied(e, input), m, r);
    } else {
      WriteCase(e, input.content, r);
    }
  }

  lemma NotWritten(m: Machine, r: Machine, input: Input)
    requires Idles(m, r) || Starts(m, r)
    requires m.out == [] && !m.phase.Ended?
    ensures Encrypted(input, Sends(r.out)) == [] && Delivers(r.out) == [] && !r.phase.Ended?
  {
  }

  lemma WriteCase(e: Endpoint, content: seq<byte>, r: Machine)
    requires Party(e) && !Over(e) && Writes(e.last, r, content) && r == Handle(e.last, LocalSend(content))
    ensures CanWrite(e, content) && Settles(Written(e, content), Applied(e, LocalSend(content)))
  {
    hide Handle, Valid, Sound, Commit, Settles;
    var w := Wrote(e.last, content);
    var f := SealedFrame(e.last.active.value.sender, content);
    assert Sends([]) == [] && Delivers([]) == [];
    assert [] + [f] == [f];
    assert Sends(w.out) == [f];
    assert e.delivered + [] == e.delivered;
    CarriedIsData(e.last.active.value.sender, f, content);
    assert Sends(r.out)[0] == f;
    IdlesCore(e, Written(e, content), Applied(e, LocalSend(content)), w, r);
  }

  lemma DataCases(from: Endpoint, e: Endpoint, e1: Endpoint, cs: seq<seq<byte>>)
    requires Party(e) && !Over(e) && TakenBy(from, e, e1, cs)
    ensures Settles(e1, Applied(e, FrameReceived(from.outbox[0])))
  {
    hide Handle, OnFrame, Valid, Sound, Idles, Starts, Settles, Decrypt, SealedFrame, Commit, Took, TookLate;
    var m, f, c := e.last, from.outbox[0], cs[0];
    PartyBasics(e);
    FrameInput(e, f);
    OpenWithSession(e);
    assert e.sent + [] == e.sent;
    if e.last.active.Some? && Carries(Expected(e.last.active.value.receiver), f, c) && e1 == TakenActive(e, f, c) {
      ReadsActive(m, f, c);
      TookOut(m, f, c);
      TookTalk(Took(m, f, c), OnFrame(m, f));
      IdlesCore(e, e1, Applied(e, FrameReceived(f)), Took(m, f, c), OnFrame(m, f));
    } else {
      SessionIdsDiffer(e);
      ReadsDraining(m, f, c);
      TookOut(m, f, c);
      SelfIdles(TookLate(m, f, c));
      TookTalk(TookLate(m, f, c), OnFrame(m, f));
      IdlesCore(e, e1, Applied(e, FrameReceived(f)), TookLate(m, f, c), OnFrame(m, f));
    }
  }

  lemma SelfIdles(m: Machine)
    ensures Idles(m, m)
  {
  }

  lemma OpenWithSession(e: Endpoint)
    requires Party(e)
    ensures (e.last.active.Some? || e.last.draining.Some?) ==> e.last.phase.Open? && e.last.active.Some?
    ensures e.last.active.Some? ==> InOrder(e.last.active.value.receiver)
    ensures e.last.draining.Some? ==> InOrder(e.last.draining.value.receiver)
  {
    hide Tidy, TableOf, RunValid;
  }

  lemma SessionIdsDiffer(e: Endpoint)
    requires Party(e) && e.last.draining.Some? && e.last.active.Some? && e.last.phase.Open?
    ensures e.last.draining.value.receiver.sessionId != e.last.active.value.receiver.sessionId
  {
    hide Tidy, TableOf, RunValid, InOrder;
  }

  /** What taking a content leaves in the effects. */
  lemma TookOut(m: Machine, f: Frame, c: seq<byte>)
    requires m.out == []
    ensures m.active.Some? ==>
              var t := Took(m, f, c);
              Sends(t.out) == [] && Delivers(t.out) == [c] && t.phase == m.phase
    ensures m.draining.Some? ==>
              var t := TookLate(m, f, c);
              Sends(t.out) == [] && Delivers(t.out) == [c] && t.phase == m.phase
  {
    hide Decrypt;
    assert Sends([]) == [] && Delivers([]) == [];
    assert [] + [c] == [c];
  }

  lemma TookTalk(m: Machine, r: Machine)
    requires Idles(m, r) || Starts(m, r)
    ensures Delivers(r.out) == Delivers(m.out) && r.phase == m.phase
  {
  }

  // ------------------------------------------------------------------ an endpoint stays a party

  lemma ClearedParty(e: Endpoint, input: Input)
    requires Party(e) && !Over(e)
    ensures var e' := Applied(e, input);
            Valid(e'.last) && e'.last.out == [] && (!Over(e') ==> e'.engine == e'.last)
                && (Over(e') ==> e'.last == e.last)
  {
    hide Handle, Tidy, TableOf, RunValid, Sound;
    HandleKeeps(e.last, input);
  }

  /** Its sessions stay in order. */
  lemma SoundMoves(e: Endpoint, e': Endpoint, run: Option<Run>, sends: seq<Frame>)
    requires Moves(e, e', run, sends) && Sound(e.last) && (e.last.phase.Handshaking? || e.last.phase.Open?)
    ensures Sound(e'.last) && (e'.last.phase.Handshaking? || e'.last.phase.Open?)
  {
    hide InOrder;
  }

  lemma SoundSettles(e: Endpoint, e': Endpoint)
    requires Settles(e, e') && Sound(e.last) && (e.last.phase.Handshaking? || e.last.phase.Open?)
    ensures Sound(e'.last) && (e'.last.phase.Handshaking? || e'.last.phase.Open?)
  {
    hide Sound, Moves, OfferRun, Commit;
    if SameCore(e, e') {
      SoundMoves(e, e', e.last.run, []);
    } else {
      SoundMoves(e, e', Some(OfferRun(Purpose.Rekey, ActiveId(e.last), NextHalf(e.last))),
                 [Commit(Purpose.Rekey, ActiveId(e.last), NextHalf(e.last))]);
    }
  }

  predicate Standing(e: Endpoint) {
    Over(e) || (Sound(e.last) && (e.last.phase.Handshaking? || e.last.phase.Open?))
  }

  lemma StandingParty(e: Endpoint, input: Input)
    requires Party(e) && !Over(e) && Standing(Applied(e, input))
    ensures Party(Applied(e, input))
  {
    hide Applied, Valid, Sound;
    ClearedParty(e, input);
  }

  lemma WrittenSound(e: Endpoint, content: seq<byte>)
    requires CanWrite(e, content) && Sound(e.last)
    ensures Sound(Written(e, content).last) && Written(e, content).last.phase.Open?
  {
    hide InOrder, SealedFrame, OnChain;
    ChainGoesOn(e.last.active.value.id, e.last.active.value.sender);
  }

  lemma ActsStanding(e: Endpoint, input: Input)
    requires Party(e) && !Over(e) && Permitted(e.engine, input) && !(input == SasDecision(true) && AwaitsUser(e.last))
    ensures Party(Applied(e, input))
  {
    hide Applied, Valid, Sound, Settles, Permitted;
    var e' := Applied(e, input);
    LocalCases(e, input);
    assert Standing(e') by {
      if Settles(e, e') {
        SoundSettles(e, e');
      } else if !Leaving(e, e') {
        WrittenSound(e, input.content);
        SoundSettles(Written(e, input.content), e');
      }
    }
    StandingParty(e, input);
  }

  lemma KeptStanding(e: Endpoint, e': Endpoint)
    requires Kept(e, e') && Party(e)
    ensures Standing(e')
  {
    hide Valid;
    if e'.last.active != e.last.active {
      var keys, role, peer :| e'.last.active == Some(NewSession(keys, role, peer));
      assert ChainAt(Seed(keys, InitiatorToResponder), InitiatorToResponder, 0) == Seed(keys, InitiatorToResponder);
      assert ChainAt(Seed(keys, ResponderToInitiator), ResponderToInitiator, 0) == Seed(keys, ResponderToInitiator);
    }
  }

  lemma ClosedStanding(e: Endpoint, e': Endpoint)
    requires (Leaving(e, e') || Dropping(e, e')) && Party(e)
    ensures Standing(e')
  {
    hide Valid, InOrder;
  }

  lemma TakenStanding(from: Endpoint, e: Endpoint, e1: Endpoint, e': Endpoint, cs: seq<seq<byte>>)
    requires TakenBy(from, e, e1, cs) && Party(e) && !Over(e) && Sound(e1.last) && Settles(e1, e')
    ensures Standing(e')
  {
    hide Valid, Sound, Settles, Decrypt, Carries;
    SoundSettles(e1, e');
  }

  // ------------------------------------------------------------------ one endpoint acts

  ghost predicate Acted(x: Endpoint, y: Endpoint, w: Outcome) {
    Either(x, y, w.g, w.xc, w.yc, w.swapped)
  }

  datatype Outcome = Outcome(g: Stage, swapped: bool, xc: seq<seq<byte>>, yc: seq<seq<byte>>)

  lemma FirstActs(x: Endpoint, y: Endpoint, input: Input, g: Stage, xc: seq<seq<byte>>,
      yc: seq<seq<byte>>) returns (w: Outcome)
    requires Joint(x, y, g, xc, yc) && Party(x) && !Over(x) && Permitted(x.engine, input)
    ensures Acted(Applied(x, input), y, w)
  {
    hide Joint, Party, Applied, Settles, Leaving, Permitted;
    var x' := Applied(x, input);
    if input == SasDecision(true) && AwaitsUser(x.last) {
      var g' := FirstApproves(x, y, g, xc, yc);
      w := Outcome(g', false, xc, yc);
    } else {
      LocalCases(x, input);
      if Leaving(x, x') {
        FirstLeaves(x, x', y, g, xc, yc);
        w := Outcome(g, false, xc, yc);
      } else if Settles(x, x') {
        var g' := FirstSettles(x, x', y, g, xc, yc);
        w := Outcome(g', false, xc, yc);
      } else {
        FirstWrites(x, y, input.content, g, xc, yc);
        var g' := FirstSettles(Written(x, input.content), x', y, g, xc + [input.content], yc);
        w := Outcome(g', false, xc + [input.content], yc);
      }
    }
  }

  lemma SecondActs(x: Endpoint, y: Endpoint, input: Input, g: Stage, xc: seq<seq<byte>>,
      yc: seq<seq<byte>>) returns (w: Outcome)
    requires Joint(x, y, g, xc, yc) && Party(y) && !Over(y) && Permitted(y.engine, input)
    ensures Acted(x, Applied(y, input), w)
  {
    hide Joint, Party, Applied, Settles, Leaving, Permitted;
    var y' := Applied(y, input);
    if input == SasDecision(true) && AwaitsUser(y.last) {
      var g' := SecondApproves(x, y, g, xc, yc);
      w := Outcome(g', false, xc, yc);
    } else {
      LocalCases(y, input);
      if Leaving(y, y') {
        SecondLeaves(x, y, y', g, xc, yc);
        w := Outcome(g, false, xc, yc);
      } else if Settles(y, y') {
        var g', swapped := SecondSettles(x, y, y', g, xc, yc);
        w := Outcome(g', swapped, xc, yc);
      } else {
        SecondWrites(x, y, input.content, g, xc, yc);
        var g', swapped := SecondSettles(x, Written(y, input.content), y', g, xc, yc + [input.content]);
        w := Outcome(g', swapped, xc, yc + [input.content]);
      }
    }
  }

  // ------------------------------------------------------------------ one endpoint reads

  /** In each stage exactly the responder or the initiator has a control frame to read. */
  lemma SecondReadsControl(x: Endpoint, y: Endpoint, g: Stage, xc: seq<seq<byte>>,
      yc: seq<seq<byte>>) returns (g': Stage)
    requires Joint(x, y, g, xc, yc) && Reads(x, y)
    ensures Joint(Popped(x), After(x, y), g', xc, yc) && Kept(y, After(x, y))
  {
    hide Link, Reads, After;
    UnreadByResponder(x, y, g, xc, yc);
    match g {
      case Offered(_, _, _) => g' := HearsOffer(x, y, g, xc, yc);
      case Glare(_, _, _, _) => g' := LoserHears(x, y, g, xc, yc);
      case Revealed(_, _) => g' := ReadsTheReveal(x, y, g, xc, yc);
      case Shared(_, _, accepted, _) =>
        if accepted {
          g' := ReadsFirstAuth(x, y, g, xc, yc);
        } else {
          g' := BuffersFirstAuth(x, y, g, xc, yc);
        }
      case Confirmed(_) => g' := ResponderSwitches(x, y, g, xc, yc);
      case _ => assert false;
    }
  }

  lemma UnreadByResponder(x: Endpoint, y: Endpoint, g: Stage, xc: seq<seq<byte>>, yc: seq<seq<byte>>)
    requires Joint(x, y, g, xc, yc) && Reads(x, y)
    ensures g.Offered? || g.Glare? || g.Revealed? || g.Shared? || g.Confirmed?
  {
    hide Link;
    HeadOfControl(x.outbox);
  }

  lemma FirstReadsControl(x: Endpoint, y: Endpoint, g: Stage, xc: seq<seq<byte>>,
      yc: seq<seq<byte>>) returns (g': Stage, swapped: bool)
    requires Joint(x, y, g, xc, yc) && Reads(y, x)
    ensures Either(After(y, x), Popped(y), g', xc, yc, swapped) && Kept(x, After(y, x))
  {
    hide Link, Reads, After;
    swapped := false;
    UnreadByInitiator(x, y, g, xc, yc);
    if g.Glare? || (g.Answered? && g.stale.Some?) {
      g' := WinnerIgnores(x, y, g, xc, yc);
    } else if g.Answered? {
      g' := ReadsTheAnswer(x, y, g, xc, yc);
    } else if g.Signed? {
      g' := ReadsSecondAuth(x, y, g, xc, yc);
    } else {
      g' := InitiatorSwitches(x, y, g, xc, yc);
      swapped := g.next.Some?;
    }
  }

  lemma UnreadByInitiator(x: Endpoint, y: Endpoint, g: Stage, xc: seq<seq<byte>>, yc: seq<seq<byte>>)
    requires Joint(x, y, g, xc, yc) && Reads(y, x)
    ensures g.Glare? || g.Answered? || g.Signed? || g.Promoted?
  {
    hide Link;
    HeadOfControl(y.outbox);
  }

  lemma SecondReads(x: Endpoint, y: Endpoint, g: Stage, xc: seq<seq<byte>>, yc: seq<seq<byte>>) returns (w: Outcome)
    requires Joint(x, y, g, xc, yc) && Party(y) && !Over(y) && x.outbox != []
    ensures Acted(Popped(x), After(x, y), w) && Standing(After(x, y))
    ensures !x.outbox[0].messageType.Close? ==> !Over(After(x, y))
  {
    hide Standing, Kept, Joint, Party, Applied, Settles, Leaving, Dropping, TakenBy, Sound;
    var y' := After(x, y);
    if x.outbox[0].messageType.Close? {
      CloseOutcome(y, x.outbox[0]);
      if Dropping(y, y') {
        SecondDrops(x, y, y', g, xc, yc);
      } else {
        SelfDrops(y);
        SecondDrops(x, y, y, g, xc, yc);
        SecondLeaves(Popped(x), y, y', g, xc, yc);
      }
      ClosedStanding(y, y');
      w := Outcome(g, false, xc, yc);
    } else if x.outbox[0].messageType.Data? {
      var y1 := SecondTakes(x, y, g, xc, yc);
      DataCases(x, y, y1, xc);
      var g', swapped := SecondSettles(Popped(x), y1, y', g, xc[1..], yc);
      w := Outcome(g', swapped, xc[1..], yc);
      TakenStanding(x, y, y1, y', xc);
      SettledIsUp(y1, y');
    } else {
      var g' := SecondReadsControl(x, y, g, xc, yc);
      KeptStanding(y, y');
      KeptIsUp(y, y');
      w := Outcome(g', false, xc, yc);
    }
  }

  lemma SettledIsUp(e: Endpoint, e': Endpoint)
    requires Settles(e, e')
    ensures !Over(e')
  {
  }

  lemma KeptIsUp(e: Endpoint, e': Endpoint)
    requires Kept(e, e')
    ensures !Over(e')
  {
  }

  lemma SelfDrops(e: Endpoint)
    requires !Over(e)
    ensures Dropping(e, e)
  {
  }

  lemma FirstReads(x: Endpoint, y: Endpoint, g: Stage, xc: seq<seq<byte>>, yc: seq<seq<byte>>) returns (w: Outcome)
    requires Joint(x, y, g, xc, yc) && Party(x) && !Over(x) && y.outbox != []
    ensures Acted(After(y, x), Popped(y), w) && Standing(After(y, x))
    ensures !y.outbox[0].messageType.Close? ==> !Over(After(y, x))
  {
    hide Standing, Kept, Joint, Party, Applied, Settles, Leaving, Dropping, TakenBy, Sound;
    var x' := After(y, x);
    if y.outbox[0].messageType.Close? {
      CloseOutcome(x, y.outbox[0]);
      if Dropping(x, x') {
        FirstDrops(x, x', y, g, xc, yc);
      } else {
        SelfDrops(x);
        FirstDrops(x, x, y, g, xc, yc);
        FirstLeaves(x, x', Popped(y), g, xc, yc);
      }
      ClosedStanding(x, x');
      w := Outcome(g, false, xc, yc);
    } else if y.outbox[0].messageType.Data? {
      var x1 := FirstTakes(x, y, g, xc, yc);
      DataCases(y, x, x1, yc);
      var g' := FirstSettles(x1, x', Popped(y), g, xc, yc[1..]);
      w := Outcome(g', false, xc, yc[1..]);
      TakenStanding(y, x, x1, x', yc);
      SettledIsUp(x1, x');
    } else {
      var g', swapped := FirstReadsControl(x, y, g, xc, yc);
      KeptStanding(x, x');
      KeptIsUp(x, x');
      w := Outcome(g', swapped, xc, yc);
    }
  }

  // ------------------------------------------------------------------ the invariant of the system

  datatype Witness = Witness(first: Side, g: Stage, xc: seq<seq<byte>>, yc: seq<seq<byte>>)

  ghost predicate Holds(s: System, w: Witness) {
    var x, y := Get(s, w.first), Get(s, Other(w.first));
    Party(x) && Party(y) && Joint(x, y, w.g, w.xc, w.yc)
  }

  function WitnessOf(first: Side, w: Outcome): Witness {
    if w.swapped then Witness(Other(first), w.g, w.yc, w.xc) else Witness(first, w.g, w.xc, w.yc)
  }

  lemma ActParty(e: Endpoint, input: Input)
    requires Party(e) && !Over(e) && Permitted(e.engine, input)
    ensures Party(Applied(e, input))
  {
    hide Applied, Valid, Sound, Permitted;
    if input == SasDecision(true) && AwaitsUser(e.last) {
      SasKeepsSessions(e);
      StandingParty(e, input);
    } else {
      ActsStanding(e, input);
    }
  }

  /** The user's approval touches no session while the handshake goes on. */
  lemma SasKeepsSessions(e: Endpoint)
    requires Party(e) && !Over(e) && AwaitsUser(e.last)
    ensures Standing(Applied(e, SasDecision(true)))
  {
    hide AfterApproval, FailInitial, CompleteInitial, Cancel, Tidy, TableOf;
    var m := e.last;
    assert m.(out := []) == m;
    SasApprovable(m);
    var taken := Cancel(m, SasWait).(run := None);
    AfterApprovalKeeps(taken, m.run.value);
    var s := AfterApproval(taken, m.run.value);
    if s.result.Err? {
      FailInitialKeeps(s.machine, s.result.error);
    }
  }

  /** One step of the system keeps the joint invariant, and only a CLOSE ends its reader. */
  lemma StepHolds(s: System, action: Action, w: Witness) returns (w': Witness)
    requires Holds(s, w) && Enabled(s, action)
    ensures Holds(StepSystem(s, action), w')
    ensures action.Deliver? && !Get(s, Other(action.to)).outbox[0].messageType.Close? ==>
              !Over(Get(StepSystem(s, action), action.to))
  {
    hide Joint, Party, Applied, Permitted;
    var x, y := Get(s, w.first), Get(s, Other(w.first));
    var outcome: Outcome;
    match action {
      case Act(side, input) =>
        if side == w.first {
          outcome := FirstActs(x, y, input, w.g, w.xc, w.yc);
          ActParty(x, input);
        } else {
          outcome := SecondActs(x, y, input, w.g, w.xc, w.yc);
          ActParty(y, input);
        }
      case Deliver(to) =>
        if to == w.first {
          outcome := FirstReads(x, y, w.g, w.xc, w.yc);
          StandingParty(x, FrameReceived(y.outbox[0]));
          PoppedParty(y);
        } else {
          outcome := SecondReads(x, y, w.g, w.xc, w.yc);
          StandingParty(y, FrameReceived(x.outbox[0]));
          PoppedParty(x);
        }
    }
    w' := WitnessOf(w.first, outcome);
  }

  lemma PoppedParty(e: Endpoint)
    requires Party(e) && e.outbox != []
    ensures Party(Popped(e))
  {
    hide Valid, Sound;
  }

  // ------------------------------------------------------------------ runs

  /** Two new engines of different identities and entropy, once both are started. */
  function Connected(a: Identity, aSource: nat, aLimit: nat, b: Identity, bSource: nat, bLimit: nat): System {
    Begin(NewMachine(Initiator, a, aSource, aLimit), NewMachine(Responder, b, bSource, bLimit))
  }

  lemma DialerStarts(a: Identity, source: nat, limit: nat)
    ensures var m := NewMachine(Initiator, a, source, limit);
            var r := Handle(m, Start);
            var h := Half(a, Secret(source, 0), Nonce(source, 1));
            SameParty(m, r) && r.phase.Handshaking? && r.run == Some(OfferRun(Initial, None, h))
            && r.active.None? && r.draining.None?
            && Sends(r.out) == [Commit(Initial, None, h)] && Delivers(r.out) == [] && Events(r.out) == []
  {
    hide Arm, RearmFrameDeadline, StartInitiatorRun, FailInitial, Talk, Questions;
    var m := NewMachine(Initiator, a, source, limit);
    var budgeted := Arm(m.(phase := Handshaking), HandshakeTotal, HANDSHAKE_TOTAL_TIMEOUT_SECS);
    InitiatorStarts(budgeted, Initial, None);
  }

  lemma ListenerStarts(b: Identity, source: nat, limit: nat)
    ensures var m := NewMachine(Responder, b, source, limit);
            var r := Handle(m, Start);
            SameParty(m, r) && r.phase.Handshaking? && r.run.None? && r.active.None? && r.draining.None?
            && Sends(r.out) == [] && Delivers(r.out) == [] && Events(r.out) == []
  {
    hide Arm, Talk, Questions;
  }

  lemma BeginHolds(a: Identity, aSource: nat, aLimit: nat, b: Identity, bSource: nat, bLimit: nat) returns (w: Witness)
    requires a != b && aSource != bSource
    ensures Holds(Connected(a, aSource, aLimit, b, bSource, bLimit), w)
    ensures w == Witness(Dialer, Offered(Initial, None, Half(a, Secret(aSource, 0), Nonce(aSource, 1))), [], [])
  {
    hide Handle, Valid, InStage, OfferRun, Commit;
    var h := Half(a, Secret(aSource, 0), Nonce(aSource, 1));
    var x, y := NewMachine(Initiator, a, aSource, aLimit), NewMachine(Responder, b, bSource, bLimit);
    w := Witness(Dialer, Offered(Initial, None, h), [], []);
    DialerStarts(a, aSource, aLimit);
    ListenerStarts(b, bSource, bLimit);
    FreshValid(Initiator, a, aSource, aLimit);
    FreshValid(Responder, b, bSource, bLimit);
    HandleKeeps(x, Start);
    HandleKeeps(y, Start);
    StartedStage(Handle(x, Start).(out := []), Handle(y, Start).(out := []), h);
    StartedLinks(Connected(a, aSource, aLimit, b, bSource, bLimit), h);
    ClearedStart(x);
    ClearedStart(y);
  }

  lemma ClearedStart(m: Machine)
    requires Valid(Handle(m, Start))
    ensures Valid(Handle(m, Start).(out := []))
  {
    hide Handle, Tidy, TableOf, RunValid;
  }

  lemma StartedStage(x: Machine, y: Machine, h: Half)
    requires Honest(x, y) && Own(x, h) && x.run == Some(OfferRun(Initial, None, h)) && y.run.None?
    requires x.phase.Handshaking? && y.phase.Handshaking? && x.role.Initiator? && y.role.Responder?
    requires x.active.None? && x.draining.None? && y.active.None? && y.draining.None?
    ensures InStage(x, y, [Commit(Initial, None, h)], [], Offered(Initial, None, h))
  {
  }

  lemma StartedLinks(s: System, h: Half)
    requires !Over(s.dialer) && !Over(s.listener) && s.dialer.outbox == [Commit(Initial, None, h)]
        && s.listener.outbox == []
    requires s.dialer.sent == s.dialer.delivered == s.listener.sent == s.listener.delivered == []
    requires s.dialer.last.active.None? && s.listener.last.active.None?
    ensures Link(s.dialer, s.listener, [], false) && Link(s.listener, s.dialer, [], false)
    ensures Control(s.dialer.outbox) == [Commit(Initial, None, h)] && Control(s.listener.outbox) == []
  {
    assert s.dialer.outbox[1..] == [];
  }

  // ------------------------------------------------------------------ whole runs

  /** Two engines nobody has started yet, of different identities and entropy. */
  predicate Unconnected(s: System) {
    var d, l := s.dialer.engine, s.listener.engine;
    d.identity != l.identity && d.source != l.source
    && s == System(Fresh(NewMachine(Initiator, d.identity, d.source, d.limit)),
                   Fresh(NewMachine(Responder, l.identity, l.source, l.limit)))
  }

  /** The same input on both sides, in either order. */
  predicate BothSides(a: Action, b: Action, input: Input) {
    (a == Act(Dialer, input) && b == Act(Listener, input)) || (a == Act(Listener, input) && b == Act(Dialer, input))
  }

  ghost predicate By(s: System, action: Action, t: System) {
    Enabled(s, action) && t == StepSystem(s, action)
  }

  /**
   * The states of two engines under any enabled actions. The driver starts an engine before it reads or
   * accepts anything, so both are started first, in either order.
   */
  ghost predicate SystemRun(states: seq<System>, actions: seq<Action>) {
    |states| == |actions| + 1 && |actions| >= 2 && Unconnected(states[0])
    && BothSides(actions[0], actions[1], Start)
    && forall i, j {:trigger By(states[i], actions[i], states[j])} ::
         0 <= i && j == i + 1 <= |actions| ==> By(states[i], actions[i], states[j])
  }

  lemma Started(states: seq<System>, actions: seq<Action>)
    requires SystemRun(states, actions)
    ensures var d, l := states[0].dialer.engine, states[0].listener.engine;
            d.identity != l.identity && d.source != l.source
            && states[2] == Connected(d.identity, d.source, d.limit, l.identity, l.source, l.limit)
  {
    hide Applied, NewMachine;
    assert By(states[0], actions[0], states[1]) && By(states[1], actions[1], states[2]);
  }

  lemma {:induction false} RunHolds(states: seq<System>, actions: seq<Action>, n: nat) returns (w: Witness)
    requires SystemRun(states, actions) && 2 <= n <= |actions|
    ensures Holds(states[n], w)
  {
    hide Holds, Enabled, StepSystem, Connected, Unconnected;
    if n == 2 {
      Started(states, actions);
      var d, l := states[0].dialer.engine, states[0].listener.engine;
      w := BeginHolds(d.identity, d.source, d.limit, l.identity, l.source, l.limit);
    } else {
      var w0 := RunHolds(states, actions, n - 1);
      assert By(states[n - 1], actions[n - 1], states[n]);
      w := StepHolds(states[n - 1], actions[n - 1], w0);
    }
  }

  // ------------------------------------------------------------------ main results

  lemma HeldContents(s: System, w: Witness)
    requires Holds(s, w)
    ensures s.dialer.delivered <= s.listener.sent && s.listener.delivered <= s.dialer.sent
    ensures s.listener.outbox == [] ==> s.dialer.delivered == s.listener.sent
    ensures s.dialer.outbox == [] ==> s.listener.delivered == s.dialer.sent
  {
    hide InStage, Party;
    var x, y := Get(s, w.first), Get(s, Other(w.first));
    assert x.delivered == y.sent[..|x.delivered|];
    assert y.delivered == x.sent[..|y.delivered|];
    assert x.delivered + [] == x.delivered && y.delivered + [] == y.delivered;
  }

  /**
   * Lossless rekey: at every moment of every run, whatever the interleaving of local input, deliveries,
   * rekeys and glare without a HandshakeFrame, HandshakeTotal or Drain timeout, what each side has delivered
   * is a prefix, in order and exactly once, of what the other side encrypted; and all of it once nothing is
   * in flight.
   */
  lemma LosslessRekey(states: seq<System>, actions: seq<Action>, n: nat)
    requires SystemRun(states, actions) && 2 <= n <= |actions|
    ensures states[n].dialer.delivered <= states[n].listener.sent
        && states[n].listener.delivered <= states[n].dialer.sent
    ensures states[n].listener.outbox == [] ==> states[n].dialer.delivered == states[n].listener.sent
    ensures states[n].dialer.outbox == [] ==> states[n].listener.delivered == states[n].dialer.sent
  {
    hide Holds;
    var w := RunHolds(states, actions, n);
    HeldContents(states[n], w);
  }

  /** One session in mirrored directions, each chain on the keys of its direction. */
  predicate Agree(x: Machine, y: Machine) {
    Paired(x, y) && OnKeys(x.active.value) && OnKeys(y.active.value)
  }

  predicate OnKeys(s: Session) {
    OnChain(s.id, s.sender) && OnChain(s.id, Expected(s.receiver))
  }

  predicate Names(id: SessionId, previous: SessionId) {
    id.IdOf? && id.keys.hash.transcript.previous == Some(previous)
  }

  predicate IsConfirmOf(f: Frame, id: SessionId) {
    f.messageType.SessionConfirm? && f.body.ConfirmBody? && f.body.confirm.sessionId == id
        && f.body.confirm.role.Responder?
  }

  /** `x` has promoted as responder and its confirmation is unread; what it superseded is `y`'s active session. */
  predicate Ahead(x: Endpoint, y: Endpoint) {
    x.engine.active.Some? && y.engine.active.Some? && x.engine.draining.Some?
    && Names(x.engine.active.value.id, y.engine.active.value.id)
    && x.engine.draining.value.id == y.engine.active.value.id
    && exists f :: f in x.outbox && IsConfirmOf(f, x.engine.active.value.id)
  }

  lemma {:induction false} ControlIsSent(chan: seq<Frame>, f: Frame)
    requires f in Control(chan)
    ensures f in chan
  {
    if f != chan[0] {
      ControlIsSent(chan[1..], f);
    }
  }

  lemma HeldAgreement(s: System, w: Witness)
    requires Holds(s, w) && s.dialer.engine.phase.Open? && s.listener.engine.phase.Open?
    ensures Agree(s.dialer.engine, s.listener.engine) || Ahead(s.dialer, s.listener) || Ahead(s.listener, s.dialer)
  {
    hide Link, Tidy, TableOf, RunValid, InOrder, OfferRun, AnswerRun, InitiatorAt, ResponderAt;
    var x, y := Get(s, w.first), Get(s, Other(w.first));
    if w.g.Promoted? {
      var f := ConfirmFrom(w.g.p, Responder);
      assert Control(y.outbox)[0] == f;
      ControlIsSent(y.outbox, f);
      assert IsConfirmOf(f, y.engine.active.value.id);
      assert Ahead(y, x);
    } else {
      assert Paired(x.engine, y.engine);
    }
  }

  /** The three cases exclude one another. */
  lemma AgreementIsExclusive(s: System)
    ensures !(Agree(s.dialer.engine, s.listener.engine) && (Ahead(s.dialer, s.listener) || Ahead(s.listener, s.dialer)))
    ensures !(Ahead(s.dialer, s.listener) && Ahead(s.listener, s.dialer))
  {
    if Ahead(s.dialer, s.listener) {
      EpochGrows(s.dialer.engine.active.value.id, s.listener.engine.active.value.id);
    }
    if Ahead(s.listener, s.dialer) {
      EpochGrows(s.listener.engine.active.value.id, s.dialer.engine.active.value.id);
    }
  }

  lemma EpochGrows(id: SessionId, previous: SessionId)
    requires Names(id, previous)
    ensures Epoch(id) == 1 + Epoch(previous)
  {
  }

  /**
   * Session agreement: whenever both sides are established, they are on one session with mirrored
   * directions and the same keys, or exactly one has promoted as responder, its SESSION_CONFIRM is still
   * in the channel and the session it superseded is the other's active one.
   */
  lemma SessionAgreement(states: seq<System>, actions: seq<Action>, n: nat)
    requires SystemRun(states, actions) && 2 <= n <= |actions|
    requires states[n].dialer.engine.phase.Open? && states[n].listener.engine.phase.Open?
    ensures Agree(states[n].dialer.engine, states[n].listener.engine)
            || Ahead(states[n].dialer, states[n].listener) || Ahead(states[n].listener, states[n].dialer)
  {
    hide Holds, Agree, Ahead;
    var w := RunHolds(states, actions, n);
    HeldAgreement(states[n], w);
  }
}
