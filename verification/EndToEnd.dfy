/** What two honest users hand in is what they get out, and what they are asked about is one thing. */
module EndToEnd {
  import opened Protocol
  import opened Symbolic
  import opened Data
  import opened Machine
  import opened EngineInvariants
  import opened HonestSteps
  import opened LocalSteps
  import opened InFlight
  import opened TwoEngines
  import opened SystemRuns
  import opened FirstHandshake
  import opened SasGating
  import opened Responses

  // ------------------------------------------------------------------ what was handed in

  /** The contents this side was given to send while it was established and could. */
  function Handed(states: seq<System>, actions: seq<Action>, n: nat, side: Side): seq<seq<byte>>
    requires n <= |actions| && |states| == |actions| + 1
  {
    if n == 0 then []
    else Handed(states, actions, n - 1, side) + Taken(Get(states[n - 1], side).engine, actions[n - 1], side)
  }

  function Taken(m: Machine, action: Action, side: Side): seq<seq<byte>> {
    if action.Act? && action.side == side && action.input.LocalSend? && Sendable(m, action.input.content)
    then [action.input.content] else []
  }

  /** Handing in content adds exactly it to what was encrypted, if it could be sent, and nothing else does. */
  lemma ActSends(e: Endpoint, input: Input)
    requires Valid(e.engine) && !e.engine.phase.Ended?
    ensures Applied(e, input).sent
         == e.sent + if input.LocalSend? && Sendable(e.engine, input.content) then [input.content] else []
  {
    hide Handle, Valid, Sends, Delivers, Events, Questions, Writes, CountsOn, SealedFrame;
    if input.LocalSend? {
      if Sendable(e.engine, input.content) {
        ContentIsSent(e.engine, input.content);
        SealedIsData(e.engine.active.value.sender, input.content);
      } else {
        ContentIsRefused(e.engine, input.content);
        RefusalWritesNothing(e.engine, input.content);
      }
    }
  }

  lemma SealedIsData(s: Sender, content: seq<byte>)
    requires |content| <= MAX_CONTENT
    ensures SealedFrame(s, content).messageType.Data?
  {
  }

  lemma RefusalWritesNothing(m: Machine, content: seq<byte>)
    requires Valid(m) && !m.phase.Ended? && !Sendable(m, content)
    ensures Encrypted(LocalSend(content), Sends(Handle(m, LocalSend(content)).out)) == []
  {
    hide Handle, Valid, Delivers, Events, Questions;
    ContentIsRefused(m, content);
    var r := Handle(m, LocalSend(content));
    if Reports(m, r, SendRejected(TooLarge)) || Reports(m, r, SendRejected(NotActive)) {
      assert r.out[..0] == [];
    }
  }

  lemma StepSends(s: System, action: Action, side: Side)
    requires Possible(s, action) && Valid(Get(s, side).engine)
    ensures Get(StepSystem(s, action), side).sent == Get(s, side).sent + Taken(Get(s, side).engine, action, side)
  {
    hide Handle, Valid, Applied;
    if action.Act? && action.side == side {
      ActSends(Get(s, side), action.input);
    } else if action.Deliver? && action.to == side {
      ActSends(Get(s, side), FrameReceived(Get(s, Other(side)).outbox[0]));
    }
  }

  /** At every moment of every run what a side has encrypted is exactly what it was given. */
  lemma {:induction false} SentIsHanded(states: seq<System>, actions: seq<Action>, n: nat, side: Side)
    requires SystemRun(states, actions) && n <= |actions|
    ensures Get(states[n], side).sent == Handed(states, actions, n, side)
  {
    hide Holds, Valid, StepSystem, Enabled;
    if n > 0 {
      SentIsHanded(states, actions, n - 1, side);
      assert By(states[n - 1], actions[n - 1], states[n]);
      ValidEngines(states, actions, n - 1);
      EnabledIsPossible(states[n - 1], actions[n - 1]);
      StepSends(states[n - 1], actions[n - 1], side);
    }
  }

  lemma EnabledIsPossible(s: System, action: Action)
    requires Enabled(s, action)
    ensures Possible(s, action)
  {
  }

  lemma {:induction false} ValidEngines(states: seq<System>, actions: seq<Action>, n: nat)
    requires SystemRun(states, actions) && n <= |actions|
    ensures forall side :: Valid(Get(states[n], side).engine)
  {
    hide Valid, Handle, Enabled;
    if n == 0 {
      var d, l := states[0].dialer.engine, states[0].listener.engine;
      FreshValid(Initiator, d.identity, d.source, d.limit);
      FreshValid(Responder, l.identity, l.source, l.limit);
    } else {
      ValidEngines(states, actions, n - 1);
      assert By(states[n - 1], actions[n - 1], states[n]);
      EnabledIsPossible(states[n - 1], actions[n - 1]);
      forall side
        ensures Valid(Get(states[n], side).engine)
      {
        var e, input := Get(states[n - 1], side).engine, InputOf(states[n - 1], actions[n - 1], side);
        if input.Some? {
          HandleKeeps(e, input.value);
          StillValid(Handle(e, input.value));
        }
      }
    }
  }

  lemma StillValid(m: Machine)
    requires Valid(m)
    ensures Valid(m.(out := []))
  {
  }

  /** What an action gives to the engine of this side. */
  function InputOf(s: System, action: Action, side: Side): Option<Input>
    requires Possible(s, action)
  {
    match action
    case Act(actor, input) => if actor == side then Some(input) else None
    case Deliver(to) => if to == side then Some(FrameReceived(Get(s, Other(side)).outbox[0])) else None
  }

  /**
   * End to end: at every moment of every run of two honest engines without a HandshakeFrame, HandshakeTotal or
   * Drain timeout, what each side has delivered is a prefix, in order and exactly once, of what the other was
   * given while it could send; and all of it once nothing is in flight.
   */
  lemma EndToEndDelivery(states: seq<System>, actions: seq<Action>, n: nat)
    requires SystemRun(states, actions) && 2 <= n <= |actions|
    ensures states[n].dialer.delivered <= Handed(states, actions, n, Listener)
        && states[n].listener.delivered <= Handed(states, actions, n, Dialer)
    ensures states[n].listener.outbox == [] ==> states[n].dialer.delivered == Handed(states, actions, n, Listener)
    ensures states[n].dialer.outbox == [] ==> states[n].listener.delivered == Handed(states, actions, n, Dialer)
  {
    hide SystemRun, Handed;
    SentIsHanded(states, actions, n, Dialer);
    SentIsHanded(states, actions, n, Listener);
    LosslessRekey(states, actions, n);
  }

  // ------------------------------------------------------------------ what the users are asked

  /** What an observer of one side has seen. */
  function SeenAt(states: seq<System>, actions: seq<Action>, n: nat, side: Side): History
    requires n <= |actions| && |states| == |actions| + 1
  {
    if n == 0 then NOTHING_SEEN
    else
      var h, s, action := SeenAt(states, actions, n - 1, side), states[n - 1], actions[n - 1];
      if !Possible(s, action) || InputOf(s, action, side).None? then h
      else
        var input := InputOf(s, action, side).value;
        NoteAll(NoteInput(h, input), Talk(Handle(Get(s, side).engine, input).out))
  }

  lemma {:induction false} SeenFits(states: seq<System>, actions: seq<Action>, n: nat, side: Side)
    requires SystemRun(states, actions) && n <= |actions|
    ensures Gate(Get(states[n], side).engine, SeenAt(states, actions, n, side))
  {
    hide Valid, Handle, Enabled, Gate, NoteAll, NoteInput;
    if n == 0 {
      NewGate(Get(states[0], side).engine);
    } else {
      SeenFits(states, actions, n - 1, side);
      ValidEngines(states, actions, n - 1);
      assert By(states[n - 1], actions[n - 1], states[n]);
      EnabledIsPossible(states[n - 1], actions[n - 1]);
      var e, h := Get(states[n - 1], side).engine, SeenAt(states, actions, n - 1, side);
      var input := InputOf(states[n - 1], actions[n - 1], side);
      if input.Some? {
        HandleGate(h, e, input.value);
        ClearedGate(SeenAt(states, actions, n, side), Handle(e, input.value));
      }
    }
  }

  /** Both were asked about one hash, each about the other. */
  predicate SameQuestion(x: Machine, xs: seq<Question>, y: Machine, ys: seq<Question>) {
    |xs| == 1 && |ys| == 1 && xs[0].hash == ys[0].hash && xs[0].peer == y.identity && ys[0].peer == x.identity
  }

  lemma SymmetricQuestion(x: Machine, xs: seq<Question>, y: Machine, ys: seq<Question>)
    requires SameQuestion(x, xs, y, ys)
    ensures SameQuestion(y, ys, x, xs)
  {
  }

  /** At every stage of a handshake, first or rekey. */
  lemma StageQuestions(x: Machine, y: Machine, xf: seq<Frame>, yf: seq<Frame>, g: Stage, hx: History, hy: History)
    requires InStage(x, y, xf, yf, g) && Gate(x, hx) && Gate(y, hy)
    ensures hx.asked != [] && hy.asked != [] ==> SameQuestion(x, hx.asked, y, hy.asked)
    ensures x.phase.Open? && y.phase.Open? ==> hx.asked != [] && hy.asked != []
  {
  }

  lemma HeldQuestions(s: System, w: Witness, hd: History, hl: History)
    requires Holds(s, w) && !Over(s.dialer) && !Over(s.listener)
    requires Gate(s.dialer.engine, hd) && Gate(s.listener.engine, hl)
    ensures hd.asked != [] && hl.asked != [] ==> SameQuestion(s.dialer.engine, hd.asked, s.listener.engine, hl.asked)
    ensures s.dialer.engine.phase.Open? && s.listener.engine.phase.Open? ==> hd.asked != [] && hl.asked != []
  {
    hide InStage, Link, Gate, SameQuestion, Valid, Sound;
    var x, y := Get(s, w.first), Get(s, Other(w.first));
    if w.first.Dialer? {
      StageQuestions(x.last, y.last, Control(x.outbox), Control(y.outbox), w.g, hd, hl);
    } else {
      StageQuestions(x.last, y.last, Control(x.outbox), Control(y.outbox), w.g, hl, hd);
      if hd.asked != [] && hl.asked != [] {
        SymmetricQuestion(s.listener.engine, hl.asked, s.dialer.engine, hd.asked);
      }
    }
  }

  /**
   * One question: in every run of two honest engines, while neither has ended, two users who have been asked
   * were asked about the same hash, each naming the other side; once both are established both have been asked,
   * and approved, and the session they are on comes down from the handshake of that hash, whatever rekeys came
   * since.
   */
  lemma UsersCompareOneHash(states: seq<System>, actions: seq<Action>, n: nat)
    requires SystemRun(states, actions) && 2 <= n <= |actions|
    requires !Over(states[n].dialer) && !Over(states[n].listener)
    ensures var d, l := states[n].dialer.engine, states[n].listener.engine;
            var hd, hl := SeenAt(states, actions, n, Dialer), SeenAt(states, actions, n, Listener);
            (hd.asked != [] && hl.asked != [] ==> SameQuestion(d, hd.asked, l, hl.asked))
            && (d.phase.Open? && l.phase.Open? ==>
                  hd.approved && hl.approved && SameQuestion(d, hd.asked, l, hl.asked)
                  && d.active.Some? && l.active.Some?
                  && Root(d.active.value.id) == Root(l.active.value.id) == Some(hd.asked[0].hash))
  {
    hide By, Unconnected, SeenAt, Holds, SameQuestion;
    var w := RunHolds(states, actions, n);
    SeenFits(states, actions, n, Dialer);
    SeenFits(states, actions, n, Listener);
    var hd, hl := SeenAt(states, actions, n, Dialer), SeenAt(states, actions, n, Listener);
    HeldQuestions(states[n], w, hd, hl);
    if hd.asked != [] && hl.asked != [] {
      SameHash(states[n].dialer.engine, hd.asked, states[n].listener.engine, hl.asked);
    }
  }

  lemma SameHash(x: Machine, xs: seq<Question>, y: Machine, ys: seq<Question>)
    requires SameQuestion(x, xs, y, ys)
    ensures |xs| == 1 && |ys| == 1 && xs[0].hash == ys[0].hash
  {
  }

  /**
   * After the nine deliveries and approvals of a first handshake the shared session's id contains the very hash
   * that both users compared.
   */
  lemma ComparedHashIsTheSessions(states: seq<System>, actions: seq<Action>)
    requires WillingRun(states, actions) && |actions| == 2 + 9
    ensures var s, n := states[|actions|], |actions|;
            var hd, hl := SeenAt(states, actions, n, Dialer), SeenAt(states, actions, n, Listener);
            SameQuestion(s.dialer.engine, hd.asked, s.listener.engine, hl.asked)
            && Agree(s.dialer.engine, s.listener.engine)
            && s.dialer.engine.active.value.id.IdOf?
            && s.dialer.engine.active.value.id.keys.hash == hd.asked[0].hash
  {
    hide By, Unconnected, SeenAt, SameQuestion;
    HandshakeCompletes(states, actions);
    AgreeIsOpen(states[|actions|]);
    UsersCompareOneHash(states, actions, |actions|);
    SameHash(states[|actions|].dialer.engine, SeenAt(states, actions, |actions|, Dialer).asked,
             states[|actions|].listener.engine, SeenAt(states, actions, |actions|, Listener).asked);
  }

  lemma AgreeIsOpen(s: System)
    requires Agree(s.dialer.engine, s.listener.engine)
    ensures s.dialer.engine.phase.Open? && s.listener.engine.phase.Open? && !Over(s.dialer) && !Over(s.listener)
  {
  }
}
