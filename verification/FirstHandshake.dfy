/** The initial handshake of two honest engines whose users approve completes in nine steps, in every order. */
module FirstHandshake {
  import opened Protocol
  import opened Symbolic
  import opened Data
  import opened Machine
  import opened EngineInvariants
  import opened HonestSteps
  import opened InFlight
  import opened LocalSteps
  import opened TwoEngines
  import opened Stages
  import opened LocalStages
  import opened SystemRuns
  import opened Glare

  /** Deliveries and approvals still to come. */
  function ToGo(g: Stage): nat {
    match g
    case Offered(_, _, _) => 9
    case Answered(_, _) => 8
    case Revealed(_, approved) => 6 + One(!approved)
    case Shared(_, approved, accepted, early) => (if early then 3 else 4) + One(!approved) + One(!accepted)
    case Signed(_) => 3
    case Confirmed(_) => 2
    case Promoted(_, _) => 1
    case _ => 0
  }

  /** The stage belongs to the initial handshake, with nothing offered on top. */
  predicate Initially(g: Stage) {
    match g
    case Quiet => true
    case Offered(purpose, _, _) => purpose.Initial?
    case Glare(_, _, _, _) => false
    case Answered(p, stale) => p.purpose.Initial? && stale.None?
    case Promoted(p, next) => p.purpose.Initial? && next.None?
    case _ => g.p.purpose.Initial?
  }

  function Reported(done: bool, peer: Identity): seq<Event> {
    if done then [Established(peer)] else []
  }

  /** The active session is that of a first handshake. */
  predicate OnFirstSession(m: Machine) {
    m.active.Some? && m.active.value.id.IdOf? && m.active.value.id.keys.hash.transcript.previous.None?
  }

  ghost predicate Greeting(x: Endpoint, y: Endpoint, g: Stage) {
    Joint(x, y, g, [], []) && Party(x) && Party(y) && !Over(x) && !Over(y) && Initially(g)
    && (g.Quiet? ==> OnFirstSession(y.last))
    && x.log == Reported(g.Quiet?, y.last.identity) && y.log == Reported(g.Quiet? || g.Promoted?, x.last.identity)
  }

  lemma ResponderHears(x: Endpoint, y: Endpoint, g: Stage) returns (g': Stage)
    requires Greeting(x, y, g) && x.outbox != []
    ensures ToGo(g) == ToGo(g') + 1 && !g'.Quiet? && Greeting(Popped(x), After(x, y), g')
  {
    hide Link, Party, Valid, Sound, Applied, InStage, Kept;
    ControlOnly(x, y, g);
    ControlAll(x.outbox);
    UnreadByResponder(x, y, g, [], []);
    PoppedParty(x);
    if g.Offered? {
      g' := HearsOffer(x, y, g, [], []);
    } else if g.Revealed? {
      g' := ReadsTheReveal(x, y, g, [], []);
    } else if g.Shared? {
      AuthInFlight(x, y, g);
      if g.accepted {
        g' := ReadsFirstAuth(x, y, g, [], []);
      } else {
        g' := BuffersFirstAuth(x, y, g, [], []);
      }
    } else {
      g' := ResponderSwitches(x, y, g, [], []);
    }
    KeptParty(y, x.outbox[0]);
  }

  lemma AuthInFlight(x: Endpoint, y: Endpoint, g: Stage)
    requires Joint(x, y, g, [], []) && g.Shared?
    ensures Control(x.outbox) != [] <==> g.approved && !g.early
  {
    hide Link;
  }

  lemma InitiatorHears(x: Endpoint, y: Endpoint, g: Stage) returns (g': Stage)
    requires Greeting(x, y, g) && y.outbox != []
    ensures ToGo(g) == ToGo(g') + 1 && Greeting(After(y, x), Popped(y), g')
  {
    hide Link, Party, Valid, Sound, Applied, InStage, Kept;
    ControlOnly(x, y, g);
    ControlAll(y.outbox);
    UnreadByInitiator(x, y, g, [], []);
    PoppedParty(y);
    if g.Answered? {
      g' := ReadsTheAnswer(x, y, g, [], []);
    } else if g.Signed? {
      g' := ReadsSecondAuth(x, y, g, [], []);
    } else {
      PromotedFirst(x, y, g);
      g' := InitiatorSwitches(x, y, g, [], []);
    }
    KeptParty(x, y.outbox[0]);
  }

  lemma PromotedFirst(x: Endpoint, y: Endpoint, g: Stage)
    requires Greeting(x, y, g) && g.Promoted?
    ensures OnFirstSession(y.last)
  {
    hide Link, Party, OfferRun, InitiatorAt;
  }

  /** One side's user approves. */
  lemma Approves(x: Endpoint, y: Endpoint, g: Stage, first: bool) returns (g': Stage)
    requires Greeting(x, y, g) && AwaitsUser((if first then x else y).last)
    ensures ToGo(g) == ToGo(g') + 1
    ensures if first then Greeting(Applied(x, SasDecision(true)), y, g')
        else Greeting(x, Applied(y, SasDecision(true)), g')
  {
    hide Link, Valid, Sound, Applied, InStage;
    if first {
      g' := FirstApproves(x, y, g, [], []);
      ApprovedParty(x);
    } else {
      g' := SecondApproves(x, y, g, [], []);
      EarlyIsApproved(x, y, g);
      ApprovedParty(y);
    }
  }

  lemma EarlyIsApproved(x: Endpoint, y: Endpoint, g: Stage)
    requires Joint(x, y, g, [], []) && g.Shared?
    ensures g.early ==> g.approved
  {
    hide Link;
  }

  lemma ApprovedParty(e: Endpoint)
    requires Party(e) && !Over(e) && AwaitsUser(e.last)
    ensures Party(Applied(e, SasDecision(true))) && Applied(e, SasDecision(true)).last.identity == e.last.identity
  {
    hide Applied, Valid, Sound;
    assert Permitted(e.engine, SasDecision(true));
    ActParty(e, SasDecision(true));
    ApprovedIdentity(e);
  }

  lemma ApprovedIdentity(e: Endpoint)
    requires Party(e) && !Over(e) && AwaitsUser(e.last)
    ensures Applied(e, SasDecision(true)).last.identity == e.last.identity
  {
    hide AfterApproval, FailInitial, CompleteInitial, Cancel, Tidy, TableOf;
    var m := e.last;
    assert m.(out := []) == m;
    SasApprovable(m);
    var taken := Cancel(m, SasWait).(run := None);
    AfterApprovalKeeps(taken, m.run.value);
    var s := AfterApproval(taken, m.run.value);
    if s.result.Err? {
      FailInitialKeeps(s.machine, s.result.error);
    }
  }

  // ------------------------------------------------------------------ runs

  /** A delivery, or an approval by a user who was asked. */
  predicate Willing(s: System, action: Action) {
    action.Deliver? || (action.input == SasDecision(true) && AwaitsUser(Get(s, action.side).engine))
  }

  ghost predicate GreetingIn(s: System, g: Stage) {
    Greeting(s.dialer, s.listener, g)
  }

  lemma WillingStep(s: System, action: Action, g: Stage) returns (g': Stage)
    requires GreetingIn(s, g) && Enabled(s, action) && Willing(s, action)
    ensures GreetingIn(StepSystem(s, action), g') && ToGo(g) == ToGo(g') + 1
  {
    hide Joint, Applied, Valid, Sound, Initially, ToGo;
    var x, y := s.dialer, s.listener;
    match action {
      case Deliver(to) =>
        if to.Dialer? {
          g' := InitiatorHears(x, y, g);
        } else {
          g' := ResponderHears(x, y, g);
        }
      case Act(side, _) => g' := Approves(x, y, g, side.Dialer?);
    }
  }

  /** Two engines that are started, and then deliveries and approvals only. */
  ghost predicate WillingRun(states: seq<System>, actions: seq<Action>) {
    SystemRun(states, actions) && forall i :: 2 <= i < |actions| ==> Willing(states[i], actions[i])
  }

  lemma {:induction false} WillingSteps(states: seq<System>, actions: seq<Action>, n: nat) returns (g: Stage)
    requires WillingRun(states, actions) && 2 <= n <= |actions|
    ensures GreetingIn(states[n], g) && ToGo(g) + (n - 2) == 9
  {
    hide GreetingIn, Enabled, StepSystem, Connected, Unconnected, Willing, ToGo;
    if n == 2 {
      Started(states, actions);
      g := Begun(states[2], states[0].dialer.engine, states[0].listener.engine);
    } else {
      var g1 := WillingSteps(states, actions, n - 1);
      assert By(states[n - 1], actions[n - 1], states[n]);
      g := WillingStep(states[n - 1], actions[n - 1], g1);
    }
  }

  lemma Begun(s: System, d: Machine, l: Machine) returns (g: Stage)
    requires d.identity != l.identity && d.source != l.source
    requires s == Connected(d.identity, d.source, d.limit, l.identity, l.source, l.limit)
    ensures GreetingIn(s, g) && ToGo(g) == 9
  {
    hide Connected, Joint, Party;
    var w := BeginHolds(d.identity, d.source, d.limit, l.identity, l.source, l.limit);
    g := w.g;
    NothingReported(d.identity, d.source, d.limit, l.identity, l.source, l.limit);
  }

  lemma NothingReported(a: Identity, aSource: nat, aLimit: nat, b: Identity, bSource: nat, bLimit: nat)
    ensures var s := Connected(a, aSource, aLimit, b, bSource, bLimit);
            s.dialer.log == [] && s.listener.log == [] && !Over(s.dialer) && !Over(s.listener)
  {
    hide Handle;
    DialerStarts(a, aSource, aLimit);
    ListenerStarts(b, bSource, bLimit);
  }

  /** Until the end a delivery or an approval is always possible. */
  lemma SomethingToDo(s: System, g: Stage)
    requires GreetingIn(s, g)
    ensures ToGo(g) > 0 ==>
              s.dialer.outbox != [] || s.listener.outbox != [] || AwaitsUser(s.dialer.engine)
                  || AwaitsUser(s.listener.engine)
    ensures ToGo(g) == 0 <==> g.Quiet?
  {
    hide Link, Valid, Sound, KeysFor;
    ControlOnly(s.dialer, s.listener, g);
  }

  /**
   * Two engines whose users approve when asked are both established after exactly nine deliveries and
   * approvals, in whatever order these come; until then one more is always possible. Each reports the
   * other's identity once, and nothing else.
   */
  lemma HandshakeCompletes(states: seq<System>, actions: seq<Action>)
    requires WillingRun(states, actions)
    ensures var s := states[|actions|];
            |actions| <= 2 + 9
            && (|actions| < 2 + 9 ==>
                  s.dialer.outbox != [] || s.listener.outbox != []
                  || AwaitsUser(s.dialer.engine) || AwaitsUser(s.listener.engine))
            && (|actions| == 2 + 9 ==>
                  Agree(s.dialer.engine, s.listener.engine)
                  && OnFirstSession(s.dialer.engine)
                  && s.dialer.log == [Established(s.listener.engine.identity)]
                  && s.listener.log == [Established(s.dialer.engine.identity)])
  {
    hide Unconnected, Agree;
    var g := WillingSteps(states, actions, |actions|);
    var s := states[|actions|];
    SomethingToDo(s, g);
    if g.Quiet? {
      QuietAgrees(s, g);
    }
  }

  lemma QuietAgrees(s: System, g: Stage)
    requires GreetingIn(s, g) && g.Quiet?
    ensures Agree(s.dialer.engine, s.listener.engine) && OnFirstSession(s.dialer.engine)
    ensures s.dialer.last.identity == s.dialer.engine.identity && s.listener.last.identity == s.listener.engine.identity
  {
    hide Link, Tidy, TableOf, RunValid, InOrder;
  }
}
