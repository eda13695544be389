/** Simultaneous rekeys converge in eight deliveries. */
module Glare {
  import opened Protocol
  import opened Symbolic
  import opened Data
  import opened Machine
  import opened EngineInvariants
  import opened HonestSteps
  import opened InFlight
  import opened LocalSteps
  import opened TwoEngines
  import opened Stages
  import opened LocalStages
  import opened SystemRuns

  // ------------------------------------------------------------------ only control frames in flight

  /** Without contents in flight and with the writer still there, the channel holds control frames only. */
  lemma {:induction false} NoDataInFlight(chan: seq<Frame>, v: View, tip: Tip)
    requires Good(chan, v, [], tip) && !tip.Gone?
    ensures Control(chan) == chan
    decreases |chan|
  {
    if chan != [] {
      NoDataInFlight(chan[1..], AfterControl(v, chan[0]), tip);
      assert [chan[0]] + chan[1..] == chan;
    }
  }

  // ------------------------------------------------------------------ the way from a glare to a new session

  /** Deliveries still to come. */
  function Remaining(g: Stage): nat {
    match g
    case Glare(_, _, _, heard) => if heard then 7 else 8
    case Answered(_, stale) => if stale.Some? then 7 else 6
    case Revealed(_, _) => 5
    case Shared(_, _, _, _) => 4
    case Signed(_) => 3
    case Confirmed(_) => 2
    case Promoted(_, _) => 1
    case _ => 0
  }

  /** The stage belongs to a rekey of session `before`, with nothing offered on top. */
  predicate Of(g: Stage, before: SessionId) {
    match g
    case Quiet => true
    case Offered(_, _, _) => false
    case Glare(b, _, _, _) => b == before
    case Promoted(p, next) => Succeeds(p, before) && next.None?
    case _ => Succeeds(g.p, before)
  }

  predicate Succeeds(p: Pairing, before: SessionId) {
    p.purpose.Rekey? && p.previous == Some(before)
  }

  function Reports(base: seq<Event>, done: bool): seq<Event> {
    if done then base + [RekeyStarted] + [RekeyCompleted] else base + [RekeyStarted]
  }

  /** Both run the pairing's session, the greater identity as its initiator. */
  predicate Installed(x: Machine, y: Machine, q: Pairing, before: SessionId) {
    Succeeds(q, before) && q.i.identity == x.identity && q.r.identity == y.identity
    && x.active == Some(SessionOf(q, Initiator)) && y.active == Some(SessionOf(q, Responder))
  }

  /** How far the winner `x` and the loser `y` have come; `q` is their pairing once all is quiet. */
  ghost predicate Underway(x: Endpoint, y: Endpoint, g: Stage, q: Option<Pairing>, before: SessionId, logX: seq<Event>,
      logY: seq<Event>) {
    Joint(x, y, g, [], []) && Party(x) && Party(y) && !Over(x) && !Over(y) && x.last.identity > y.last.identity
    && Of(g, before)
    && x.log == Reports(logX, g.Quiet?) && y.log == Reports(logY, g.Quiet? || g.Promoted?)
    && (g.Promoted? ==> y.last.active == Some(SessionOf(g.p, Responder)))
    && (g.Quiet? ==> q.Some? && Installed(x.last, y.last, q.value, before))
  }

  lemma ControlOnly(x: Endpoint, y: Endpoint, g: Stage)
    requires Joint(x, y, g, [], []) && !Over(x) && !Over(y)
    ensures Control(x.outbox) == x.outbox && Control(y.outbox) == y.outbox
  {
    hide InStage, Good;
    NoDataInFlight(x.outbox, ViewOf(y.last), TipOf(x, Lags(g)));
    NoDataInFlight(y.outbox, ViewOf(x.last), TipOf(y, false));
  }

  lemma ControlAll(chan: seq<Frame>)
    requires Control(chan) == chan && chan != []
    ensures IsControl(chan[0])
  {
    ControlBound(chan[1..]);
  }

  lemma {:induction false} ControlBound(chan: seq<Frame>)
    ensures |Control(chan)| <= |chan|
  {
    if chan != [] {
      ControlBound(chan[1..]);
    }
  }

  lemma KeptParty(e: Endpoint, f: Frame)
    requires Party(e) && !Over(e) && Kept(e, Applied(e, FrameReceived(f)))
    ensures Party(Applied(e, FrameReceived(f))) && !Over(Applied(e, FrameReceived(f)))
    ensures Applied(e, FrameReceived(f)).last.identity == e.last.identity
  {
    hide Applied, Valid, Sound;
    KeptStanding(e, Applied(e, FrameReceived(f)));
    StandingParty(e, FrameReceived(f));
  }

  /** The loser reads: one delivery less to come. */
  lemma LoserReads(x: Endpoint, y: Endpoint, g: Stage, q: Option<Pairing>, before: SessionId, logX: seq<Event>,
      logY: seq<Event>) returns (g': Stage)
    requires Underway(x, y, g, q, before, logX, logY) && x.outbox != []
    ensures Remaining(g) == Remaining(g') + 1 && !g'.Quiet?
    ensures Underway(Popped(x), After(x, y), g', q, before, logX, logY)
  {
    hide Link, Party, Valid, Sound, Applied, InStage, Kept, SessionOf;
    ControlOnly(x, y, g);
    ControlAll(x.outbox);
    UnreadByResponder(x, y, g, [], []);
    PoppedParty(x);
    if g.Glare? {
      g' := LoserHears(x, y, g, [], []);
    } else if g.Revealed? {
      g' := ReadsTheReveal(x, y, g, [], []);
    } else if g.Shared? {
      RekeyAccepted(x, y, g);
      g' := ReadsFirstAuth(x, y, g, [], []);
    } else {
      g' := ResponderSwitches(x, y, g, [], []);
    }
    KeptParty(y, x.outbox[0]);
  }

  lemma RekeyAccepted(x: Endpoint, y: Endpoint, g: Stage)
    requires Joint(x, y, g, [], []) && g.Shared? && g.p.purpose.Rekey?
    ensures g.accepted && g.approved
  {
  }

  /** The winner reads: one delivery less to come, and with the last one both are on the new session. */
  lemma WinnerReads(x: Endpoint, y: Endpoint, g: Stage, q: Option<Pairing>, before: SessionId, logX: seq<Event>,
      logY: seq<Event>)
      returns (g': Stage, q': Option<Pairing>)
    requires Underway(x, y, g, q, before, logX, logY) && y.outbox != []
    ensures Remaining(g) == Remaining(g') + 1
    ensures Underway(After(y, x), Popped(y), g', q', before, logX, logY)
  {
    hide Link, Party, Valid, Sound, Applied, InStage, Kept, SessionOf;
    ControlOnly(x, y, g);
    ControlAll(y.outbox);
    UnreadByInitiator(x, y, g, [], []);
    PoppedParty(y);
    q' := q;
    if g.Glare? || (g.Answered? && g.stale.Some?) {
      g' := WinnerIgnores(x, y, g, [], []);
    } else if g.Answered? {
      g' := ReadsTheAnswer(x, y, g, [], []);
    } else if g.Signed? {
      g' := ReadsSecondAuth(x, y, g, [], []);
    } else {
      SwitchedIdentities(x, y, g);
      g' := InitiatorSwitches(x, y, g, [], []);
      q' := Some(g.p);
    }
    KeptParty(x, y.outbox[0]);
  }

  lemma SwitchedIdentities(x: Endpoint, y: Endpoint, g: Stage)
    requires Joint(x, y, g, [], []) && g.Promoted?
    ensures g.p.i.identity == x.last.identity && g.p.r.identity == y.last.identity
  {
    hide Link;
  }

  // ------------------------------------------------------------------ runs of deliveries

  /** From this moment on only deliveries happen. */
  predicate OnlyDeliveries(actions: seq<Action>, from: nat) {
    forall i :: from <= i < |actions| ==> actions[i].Deliver?
  }

  /** The winner and the loser among the two sides. */
  ghost predicate UnderwayIn(s: System, winner: Side, g: Stage, q: Option<Pairing>, before: SessionId, bw: seq<Event>,
      bl: seq<Event>) {
    Underway(Get(s, winner), Get(s, Other(winner)), g, q, before, bw, bl)
  }

  lemma DeliveryStep(s: System, action: Action, winner: Side, g: Stage, q: Option<Pairing>, before: SessionId,
      bw: seq<Event>, bl: seq<Event>)
      returns (g': Stage, q': Option<Pairing>)
    requires UnderwayIn(s, winner, g, q, before, bw, bl) && Enabled(s, action) && action.Deliver?
    ensures UnderwayIn(StepSystem(s, action), winner, g', q', before, bw, bl) && Remaining(g) == Remaining(g') + 1
  {
    hide Underway, Applied;
    var x, y := Get(s, winner), Get(s, Other(winner));
    if action.to == winner {
      g', q' := WinnerReads(x, y, g, q, before, bw, bl);
    } else {
      q' := q;
      g' := LoserReads(x, y, g, q, before, bw, bl);
    }
  }

  /** Every delivery counts, so no order takes more than what remains. */
  lemma {:induction false} DeliveriesCount(states: seq<System>, actions: seq<Action>, from: nat, n: nat, winner: Side,
      g: Stage,
                                           before: SessionId, bw: seq<Event>, bl: seq<Event>)
      returns (g': Stage, q': Option<Pairing>)
    requires SystemRun(states, actions) && from <= n <= |actions| && OnlyDeliveries(actions, from)
    requires UnderwayIn(states[from], winner, g, None, before, bw, bl)
    ensures n - from <= Remaining(g) && Remaining(g') == Remaining(g) - (n - from)
    ensures UnderwayIn(states[n], winner, g', q', before, bw, bl)
    decreases n
  {
    hide UnderwayIn, Enabled, StepSystem, Unconnected, Holds;
    if n == from {
      g', q' := g, None;
    } else {
      var g1, q1 := DeliveriesCount(states, actions, from, n - 1, winner, g, before, bw, bl);
      assert By(states[n - 1], actions[n - 1], states[n]);
      g', q' := DeliveryStep(states[n - 1], actions[n - 1], winner, g1, q1, before, bw, bl);
    }
  }

  /** While anything remains, something can be delivered. */
  lemma SomethingToDeliver(x: Endpoint, y: Endpoint, g: Stage, q: Option<Pairing>, before: SessionId, logX: seq<Event>,
      logY: seq<Event>)
    requires Underway(x, y, g, q, before, logX, logY)
    ensures g.Quiet? <==> x.outbox == [] && y.outbox == []
    ensures Remaining(g) == 0 <==> g.Quiet?
  {
    hide Link, Party;
    ControlOnly(x, y, g);
    if g.Shared? {
      RekeyAccepted(x, y, g);
    }
  }

  // ------------------------------------------------------------------ both ask at once

  lemma Requests(e: Endpoint)
    requires Party(e) && !Over(e) && e.last.phase.Open? && e.last.run.None?
    ensures var e' := Applied(e, RequestRekey);
            Offering(e, e') && Party(e') && !Over(e') && e'.log == e.log + [RekeyStarted]
                && e'.last.identity == e.last.identity
  {
    hide BeginRekey, Valid, Sound, OfferRun, Commit, Applied, Moves;
    PartyBasics(e);
    OpenWithSessionActive(e);
    var m := e.last;
    Offers(m);
    assert Handle(m, RequestRekey) == BeginRekey(m);
    AppliedMoves(e, RequestRekey, Some(OfferRun(Purpose.Rekey, ActiveId(m), NextHalf(m))),
        [Commit(Purpose.Rekey, ActiveId(m), NextHalf(m))], [RekeyStarted]);
    ActParty(e, RequestRekey);
    MovesCore(e, Applied(e, RequestRekey), Some(OfferRun(Purpose.Rekey, ActiveId(m), NextHalf(m))),
        [Commit(Purpose.Rekey, ActiveId(m), NextHalf(m))]);
  }

  lemma OpenWithSessionActive(e: Endpoint)
    requires Party(e) && e.last.phase.Open?
    ensures e.last.active.Some?
  {
    hide Tidy, TableOf, RunValid;
  }

  predicate Active(e: Endpoint) {
    e.engine.phase.Open? && e.engine.run.None? && e.engine.active.Some? && e.outbox == []
  }

  /** A reachable system with both sides Active and nothing in flight. */
  ghost predicate BothActive(s: System, w: Witness) {
    Holds(s, w) && Active(s.dialer) && Active(s.listener)
  }

  function BothRequest(s: System): System {
    System(Applied(s.dialer, RequestRekey), Applied(s.listener, RequestRekey))
  }

  lemma QuietDialer(s: System, w: Witness)
    requires BothActive(s, w)
    ensures Joint(s.dialer, s.listener, Quiet, [], []) && Party(s.dialer) && Party(s.listener)
    ensures s.dialer.last.identity != s.listener.last.identity && s.dialer.last.phase.Open?
        && s.listener.last.phase.Open?
    ensures s.dialer.last.run.None? && s.listener.last.run.None? && s.dialer.last.active.Some?
    ensures !Over(s.dialer) && !Over(s.listener)
  {
    hide Valid, Sound;
    ActiveIsQuiet(s, w);
    if w.first.Listener? {
      QuietSwap(s.listener, s.dialer, w.xc, w.yc);
    }
  }

  lemma ActiveIsQuiet(s: System, w: Witness)
    requires BothActive(s, w)
    ensures w.g.Quiet? && w.xc == [] && w.yc == [] && !Over(s.dialer) && !Over(s.listener)
  {
    hide Valid, Sound, Link;
    var x, y := Get(s, w.first), Get(s, Other(w.first));
    EmptyLink(x, y, w.xc, Lags(w.g));
    EmptyLink(y, x, w.yc, false);
  }

  lemma EmptyLink(from: Endpoint, to: Endpoint, cs: seq<seq<byte>>, behind: bool)
    requires Link(from, to, cs, behind) && from.outbox == []
    ensures cs == []
  {
  }

  lemma GlareBegins(s: System, w: Witness) returns (winner: Side, g: Stage)
    requires BothActive(s, w)
    ensures s.dialer.last.active.Some?
    ensures var t := BothRequest(s);
            Get(s, winner).last.identity > Get(s, Other(winner)).last.identity && Remaining(g) == 8
            && UnderwayIn(t, winner, g, None, s.dialer.last.active.value.id, Get(s, winner).log,
                Get(s, Other(winner)).log)
  {
    hide Joint, Party, Applied, Offering;
    QuietDialer(s, w);
    var t := BothRequest(s);
    Requests(s.dialer);
    Requests(s.listener);
    var g1 := FirstOffers(s.dialer, t.dialer, s.listener, Quiet, [], []);
    var g2, swapped := SecondCrosses(t.dialer, s.listener, t.listener, g1, [], []);
    g := g2;
    winner := if swapped then Listener else Dialer;
    GlareOf(s, t, g1, g2, swapped);
  }

  lemma GlareOf(s: System, t: System, g1: Stage, g2: Stage, swapped: bool)
    requires s.dialer.last.active.Some? && g1 == Offered(Purpose.Rekey, ActiveId(s.dialer.last),
        NextHalf(s.dialer.last))
    requires g2.Glare? && (if swapped then Joint(t.listener, t.dialer, g2, [], [])
        else Joint(t.dialer, t.listener, g2, [], []))
    requires Offering(s.dialer, t.dialer)
    ensures g2.before == s.dialer.last.active.value.id
  {
    hide Link, OfferRun, Commit;
  }

  /** Both ended up on the same new session, with one rekey started and completed on each side and none failed. */
  predicate Converged(s: System, t: System, winner: Side, before: SessionId) {
    var x, y := Get(t, winner).engine, Get(t, Other(winner)).engine;
    x.phase.Open? && y.phase.Open? && x.run.None? && y.run.None? && x.active.Some? && y.active.Some?
    && x.active.value.id == y.active.value.id && Names(x.active.value.id, before) && x.active.value.id != before
    && x.active.value.id.keys.hash.transcript.initiatorIdentity == x.identity > y.identity
    && x.active.value.sender.direction == InitiatorToResponder
        && y.active.value.sender.direction == ResponderToInitiator
    && t.dialer.log == s.dialer.log + [RekeyStarted, RekeyCompleted]
    && t.listener.log == s.listener.log + [RekeyStarted, RekeyCompleted]
    && t.dialer.outbox == [] && t.listener.outbox == []
  }

  lemma InstalledConverges(s: System, t: System, winner: Side, g: Stage, q: Option<Pairing>, before: SessionId)
    requires UnderwayIn(t, winner, g, q, before, Get(s, winner).log, Get(s, Other(winner)).log) && g.Quiet?
    ensures Converged(s, t, winner, before)
  {
    hide Link, Valid, Sound;
    var x, y := Get(t, winner), Get(t, Other(winner));
    ControlOnly(x, y, g);
    FreshId(q.value);
    MirrorSessions(q.value);
    assert forall b: seq<Event> :: b + [RekeyStarted] + [RekeyCompleted] == b + [RekeyStarted, RekeyCompleted];
  }

  /** At moment `k` both sides are Active with nothing in flight; both ask for a rekey, then deliveries follow. */
  ghost predicate GlareAt(states: seq<System>, actions: seq<Action>, k: nat) {
    SystemRun(states, actions) && 2 <= k && k + 2 <= |actions|
    && Active(states[k].dialer) && Active(states[k].listener)
    && BothSides(actions[k], actions[k + 1], RequestRekey)
    && OnlyDeliveries(actions, k + 2)
  }

  lemma GlareRuns(states: seq<System>, actions: seq<Action>, k: nat) returns (winner: Side, g: Stage)
    requires GlareAt(states, actions, k)
    ensures Remaining(g) == 8 && states[k].dialer.last.active == states[k].dialer.engine.active
    ensures Get(states[k], winner).engine.identity > Get(states[k], Other(winner)).engine.identity
    ensures UnderwayIn(states[k + 2], winner, g, None, states[k].dialer.engine.active.value.id,
                       Get(states[k], winner).log, Get(states[k], Other(winner)).log)
  {
    hide Holds, Applied, Unconnected, Underway, Remaining;
    var w := RunHolds(states, actions, k);
    assert By(states[k], actions[k], states[k + 1]) && By(states[k + 1], actions[k + 1], states[k + 2]);
    assert states[k + 2] == BothRequest(states[k]);
    winner, g := GlareBegins(states[k], w);
    LastIsCurrent(states[k], w);
  }

  lemma LastIsCurrent(s: System, w: Witness)
    requires BothActive(s, w)
    ensures s.dialer.last == s.dialer.engine && s.listener.last == s.listener.engine
  {
    hide Valid, Sound, Joint;
  }

  /**
   * Glare convergence: from two Active engines on one session with nothing in flight, if both ask for a
   * rekey, every order of deliveries ends after exactly eight of them, with both sides Active on the same
   * new session. Until then something can always be delivered, and after that nothing. The greater
   * identity is the initiator that survives.
   */
  lemma GlareConverges(states: seq<System>, actions: seq<Action>, k: nat) returns (winner: Side)
    requires GlareAt(states, actions, k)
    ensures var t := states[|actions|];
            |actions| <= k + 2 + 8
            && (t.dialer.outbox == [] && t.listener.outbox == [] <==> |actions| == k + 2 + 8)
            && (|actions| == k + 2 + 8 ==> Converged(states[k], t, winner, states[k].dialer.engine.active.value.id))
    ensures Get(states[k], winner).engine.identity > Get(states[k], Other(winner)).engine.identity
  {
    hide Unconnected, Converged, Underway, Remaining;
    var g: Stage;
    winner, g := GlareRuns(states, actions, k);
    var before, bw, bl := states[k].dialer.engine.active.value.id, Get(states[k], winner).log,
        Get(states[k], Other(winner)).log;
    var g', q' := DeliveriesCount(states, actions, k + 2, |actions|, winner, g, before, bw, bl);
    var t := states[|actions|];
    SomethingToDeliver(Get(t, winner), Get(t, Other(winner)), g', q', before, bw, bl);
    if |actions| == k + 10 {
      InstalledConverges(states[k], t, winner, g', q', before);
    }
  }
}
