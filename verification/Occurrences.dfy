/** Runs that do happen: a glare that converges, and a timeout that parts the sides. */
module Occurrences {
  import opened Protocol
  import opened Symbolic
  import opened Data
  import opened Machine
  import opened EngineInvariants
  import opened HonestSteps
  import opened InFlight
  import opened LocalSteps
  import opened TwoEngines
  import opened Stages
  import opened SystemRuns
  import opened Glare
  import opened FirstHandshake
  import opened Stragglers
  import opened Estrangement
  import opened Parting

  // ------------------------------------------------------------------ making runs longer

  ghost predicate Chained(states: seq<System>, actions: seq<Action>) {
    |states| == |actions| + 1
    && forall i, j {:trigger By(states[i], actions[i], states[j])} ::
         0 <= i && j == i + 1 <= |actions| ==> By(states[i], actions[i], states[j])
  }

  lemma ChainGoesOn(states: seq<System>, actions: seq<Action>, action: Action, next: System)
    requires Chained(states, actions) && By(states[|actions|], action, next)
    ensures Chained(states + [next], actions + [action])
  {
    hide By;
    var longer, more := states + [next], actions + [action];
    forall i, j {:trigger By(longer[i], more[i], longer[j])} | 0 <= i && j == i + 1 <= |more|
      ensures By(longer[i], more[i], longer[j])
    {
      if j < |more| {
        assert longer[i] == states[i] && longer[j] == states[j] && more[i] == actions[i];
        assert By(states[i], actions[i], states[j]);
      }
    }
  }

  /** A run is a chain whose first two steps start the engines. */
  lemma RunIsChain(states: seq<System>, actions: seq<Action>)
    ensures SystemRun(states, actions)
       <==> Chained(states, actions) && |actions| >= 2 && Unconnected(states[0])
            && BothSides(actions[0], actions[1], Start)
  {
    hide By, Unconnected;
  }

  lemma RunGoesOn(states: seq<System>, actions: seq<Action>, action: Action, next: System)
    requires SystemRun(states, actions) && By(states[|actions|], action, next)
    ensures SystemRun(states + [next], actions + [action])
  {
    hide SystemRun, Chained, Unconnected, By, BothSides;
    RunIsChain(states, actions);
    Lengths(states, actions);
    ChainGoesOn(states, actions, action, next);
    RunIsChain(states + [next], actions + [action]);
  }

  lemma Taken(s: System, action: Action) returns (next: System)
    requires Enabled(s, action)
    ensures By(s, action, next) && next == StepSystem(s, action)
  {
    next := StepSystem(s, action);
  }

  /** Two started engines. */
  lemma Starting(a: Identity, aSource: nat, aLimit: nat, b: Identity, bSource: nat, bLimit: nat)
      returns (states: seq<System>, actions: seq<Action>)
    requires a != b && aSource != bSource
    ensures WillingRun(states, actions) && |actions| == 2
  {
    hide Handle;
    var dialer, listener := NewMachine(Initiator, a, aSource, aLimit), NewMachine(Responder, b, bSource, bLimit);
    var s0 := System(Fresh(dialer), Fresh(listener));
    actions := [Act(Dialer, Start), Act(Listener, Start)];
    var s1 := StepSystem(s0, actions[0]);
    states := [s0, s1, StepSystem(s1, actions[1])];
    assert By(states[0], actions[0], states[1]) && By(states[1], actions[1], states[2]);
  }

  /** A delivery or an approval that is possible now. */
  lemma NextWilling(s: System, g: Stage) returns (action: Action)
    requires GreetingIn(s, g) && ToGo(g) > 0
    ensures Enabled(s, action) && Willing(s, action)
  {
    hide Joint, Valid, Sound, ToGo, Initially;
    SomethingToDo(s, g);
    action :=
      if s.dialer.outbox != [] then Action.Deliver(Listener)
      else if s.listener.outbox != [] then Action.Deliver(Dialer)
      else if AwaitsUser(s.dialer.engine) then Act(Dialer, SasDecision(true))
      else Act(Listener, SasDecision(true));
  }

  lemma {:induction false} Greetings(a: Identity, aSource: nat, aLimit: nat, b: Identity, bSource: nat, bLimit: nat,
      n: nat)
      returns (states: seq<System>, actions: seq<Action>)
    requires a != b && aSource != bSource && n <= 9
    ensures WillingRun(states, actions) && |actions| == 2 + n
  {
    hide Enabled, StepSystem, SystemRun, Willing, GreetingIn;
    if n == 0 {
      states, actions := Starting(a, aSource, aLimit, b, bSource, bLimit);
    } else {
      var before, done := Greetings(a, aSource, aLimit, b, bSource, bLimit, n - 1);
      Lengths(before, done);
      var g := WillingSteps(before, done, |done|);
      var action := NextWilling(before[|done|], g);
      var next := Taken(before[|done|], action);
      RunGoesOn(before, done, action, next);
      states, actions := before + [next], done + [action];
    }
  }

  lemma Lengths(states: seq<System>, actions: seq<Action>)
    requires SystemRun(states, actions)
    ensures |states| == |actions| + 1
  {
  }

  // ------------------------------------------------------------------ a glare

  /** After the first handshake both are Active with nothing in flight. */
  lemma GreetedActive(s: System, g: Stage)
    requires GreetingIn(s, g) && g.Quiet?
    ensures Active(s.dialer) && Active(s.listener)
  {
    hide Link, Valid, Sound;
    ControlOnly(s.dialer, s.listener, g);
  }

  lemma AsksToo(s: System)
    requires Active(s.dialer) && Active(s.listener)
    ensures Enabled(s, Act(Dialer, RequestRekey))
    ensures var t := StepSystem(s, Act(Dialer, RequestRekey));
            Enabled(t, Act(Listener, RequestRekey))
  {
    hide Handle;
  }

  /** A glare with its first `n` deliveries. */
  lemma {:induction false} GlareHappens(a: Identity, aSource: nat, aLimit: nat, b: Identity, bSource: nat, bLimit: nat,
      n: nat)
      returns (states: seq<System>, actions: seq<Action>, k: nat)
    requires a != b && aSource != bSource && n <= 8
    ensures GlareAt(states, actions, k) && |actions| == k + 2 + n
  {
    hide Enabled, StepSystem, SystemRun, Active, Willing, GreetingIn;
    if n == 0 {
      states, actions := Greetings(a, aSource, aLimit, b, bSource, bLimit, 9);
      Lengths(states, actions);
      k := |actions|;
      var g := WillingSteps(states, actions, k);
      SomethingToDo(states[k], g);
      GreetedActive(states[k], g);
      AsksToo(states[k]);
      var asked := Taken(states[k], Act(Dialer, RequestRekey));
      RunGoesOn(states, actions, Act(Dialer, RequestRekey), asked);
      states, actions := states + [asked], actions + [Act(Dialer, RequestRekey)];
      var crossed := Taken(asked, Act(Listener, RequestRekey));
      RunGoesOn(states, actions, Act(Listener, RequestRekey), crossed);
      states, actions := states + [crossed], actions + [Act(Listener, RequestRekey)];
    } else {
      var before, done;
      before, done, k := GlareHappens(a, aSource, aLimit, b, bSource, bLimit, n - 1);
      Lengths(before, done);
      var action := NextDelivery(before, done, k);
      var next := Taken(before[|done|], action);
      RunGoesOn(before, done, action, next);
      states, actions := before + [next], done + [action];
    }
  }

  lemma NextDelivery(states: seq<System>, actions: seq<Action>, k: nat) returns (action: Action)
    requires GlareAt(states, actions, k) && |actions| < k + 2 + 8
    ensures action.Deliver? && Enabled(states[|actions|], action)
  {
    hide SystemRun, Underway, Remaining;
    var winner, g, q := GlareMoment(states, actions, k);
    var t := states[|actions|];
    var before, bw, bl := states[k].dialer.engine.active.value.id, Get(states[k], winner).log,
        Get(states[k], Other(winner)).log;
    SomethingToDeliver(Get(t, winner), Get(t, Other(winner)), g, q, before, bw, bl);
    UnderwayIsUp(Get(t, winner), Get(t, Other(winner)), g, q, before, bw, bl);
    action := if t.dialer.outbox != [] then Action.Deliver(Listener) else Action.Deliver(Dialer);
  }

  lemma GlareMoment(states: seq<System>, actions: seq<Action>, k: nat)
      returns (winner: Side, g: Stage, q: Option<Pairing>)
    requires GlareAt(states, actions, k)
    ensures |states| == |actions| + 1 && states[k].dialer.engine.active.Some? && |actions| <= k + 10
    ensures UnderwayIn(states[|actions|], winner, g, q, states[k].dialer.engine.active.value.id,
                       Get(states[k], winner).log, Get(states[k], Other(winner)).log)
    ensures Remaining(g) == k + 10 - |actions|
  {
    hide UnderwayIn, Remaining;
    var g0: Stage;
    winner, g0 := GlareRuns(states, actions, k);
    g, q := DeliveriesCount(states, actions, k + 2, |actions|, winner, g0, states[k].dialer.engine.active.value.id,
                            Get(states[k], winner).log, Get(states[k], Other(winner)).log);
  }

  lemma UnderwayIsUp(x: Endpoint, y: Endpoint, g: Stage, q: Option<Pairing>, before: SessionId, logX: seq<Event>,
      logY: seq<Event>)
    requires Underway(x, y, g, q, before, logX, logY)
    ensures !Over(x) && !Over(y)
  {
  }

  // ------------------------------------------------------------------ a timeout that parts the sides

  lemma FrameDeadline(x: Endpoint, y: Endpoint, g: Stage) returns (id: nat)
    requires Joint(x, y, g, [], []) && Party(x) && !Over(x) && g.Promoted? && g.p.purpose.Rekey?
    ensures x.engine.phase.Open? && KindOf(x.engine.deadlines, id) == Some(HandshakeFrame)
    ensures x.engine.run.Some? && x.engine.run.value.step.ConfirmResp?
  {
    hide Link, Sound, Tidy, TableOf, RunValid, InitiatorAt, KeysFor;
    StepsOf(g.p, ConfirmResp, ConfirmInit);
    id := ArmedHasId(x.last.deadlines, HandshakeFrame, x.last.nextDeadline);
  }

  lemma {:induction false} ArmedHasId(ds: seq<Deadline>, kind: DeadlineKind, bound: nat) returns (id: nat)
    requires Tidy(ds, bound) && Has(TableOf(ds), kind)
    ensures KindOf(ds, id) == Some(kind)
  {
    if ds[0].kind == kind {
      id := ds[0].id;
    } else {
      id := ArmedHasId(ds[1..], kind, bound);
    }
  }

  /** One delivery before the end of a glare the winner has confirmed and waits, with nothing else in flight. */
  lemma LastMoment(x: Endpoint, y: Endpoint, g: Stage, q: Option<Pairing>, before: SessionId, logX: seq<Event>,
      logY: seq<Event>)
    requires Underway(x, y, g, q, before, logX, logY) && Remaining(g) == 1
    ensures g.Promoted? && g.p.purpose.Rekey? && Joint(x, y, g, [], []) && Party(x) && !Over(x) && !Over(y)
    ensures x.outbox == [] && y.outbox == [ConfirmFrom(g.p, Responder)]
  {
    hide Link, Valid, Sound, ConfirmFrom, KeysFor, InitiatorAt;
    ControlOnly(x, y, g);
  }

  /** The timeout and the delivery that follows leave nothing in flight. */
  lemma GivesUpTooEarly(s: System, x: Side, id: nat, p: Pairing) returns (later: seq<System>, more: seq<Action>)
    requires Party(Get(s, x)) && !Over(Get(s, x)) && !Over(Get(s, Other(x))) && Get(s, x).last.phase.Open?
    requires HandshakeTimeout(Get(s, x).last, id)
    requires Get(s, x).outbox == [] && Get(s, Other(x)).outbox == [ConfirmFrom(p, Responder)]
    ensures FreeRun(later, more) && later[0] == s && more == [Act(x, Timeout(id)), Action.Deliver(x)]
    ensures Quieted(later[2])
  {
    hide Party, Applied, Ghost, ConfirmFrom;
    var e, e1 := Get(s, x), Applied(Get(s, x), Timeout(id));
    more := [Act(x, Timeout(id)), Action.Deliver(x)];
    BecomesGhost(e, id);
    GhostParty(e1, e);
    var s1 := StepSystem(s, more[0]);
    PlainFrames(p, p.purpose, p.previous, p.i);
    GhostDrops(e1, e, ConfirmFrom(p, Responder));
    later := [s, s1, StepSystem(s1, more[1])];
    assert Can(later[0], more[0], later[1]) && Can(later[1], more[1], later[2]);
  }

  /** There are two engines and a run of theirs that a frame timeout parts. */
  lemma PartingHappens(a: Identity, aSource: nat, aLimit: nat, b: Identity, bSource: nat, bLimit: nat)
      returns (states: seq<System>, actions: seq<Action>, later: seq<System>, more: seq<Action>, side: Side, id: nat)
    requires a != b && aSource != bSource
    ensures OneTimeout(states, actions, later, more, side, id)
    ensures Quieted(later[|more|]) && !OneSession(later[|more|])
  {
    hide SystemRun, Underway, Remaining, Party, Joint, OneSession, Accounted;
    var k;
    states, actions, k := GlareHappens(a, aSource, aLimit, b, bSource, bLimit, 7);
    var g, q;
    side, g, q := GlareMoment(states, actions, k);
    var s, before := states[|actions|], states[k].dialer.engine.active.value.id;
    LastMoment(Get(s, side), Get(s, Other(side)), g, q, before, Get(states[k], side).log,
        Get(states[k], Other(side)).log);
    id := FrameDeadline(Get(s, side), Get(s, Other(side)), g);
    EngineIsLast(Get(s, side));
    later, more := GivesUpTooEarly(s, side, id, g.p);
    TimeoutParts(states, actions, later, more, side, id);
  }

  lemma EngineIsLast(e: Endpoint)
    requires Party(e) && !Over(e)
    ensures e.last == e.engine
  {
    hide Valid, Sound;
  }
}
