/** Two engines on different sessions never find back to one, whatever they are asked to do. */
module Estrangement {
  import opened Protocol
  import opened Symbolic
  import opened Data
  import opened Machine
  import opened EngineInvariants
  import opened HonestSteps
  import opened InFlight
  import opened LocalSteps
  import opened TwoEngines
  import opened Stragglers
  import Isolation = RekeyIsolation

  // ------------------------------------------------------------------ one engine

  /** No run, or an offer nobody has answered. */
  predicate Aloof(m: Machine) {
    m.run.Some? ==> m.run.value.role.Initiator? && m.run.value.step.Hello?
  }

  /** The frame answers nothing, and what it offers builds on session `id`. */
  predicate BuildsOn(f: Frame, id: SessionId) {
    DecodeHello(f).Err? && (DecodeCommit(f).Ok? ==> DecodeCommit(f).value.previous == Some(id))
  }

  ghost predicate AllBuildOn(fs: seq<Frame>, id: SessionId) {
    forall f :: f in fs ==> BuildsOn(f, id)
  }

  /** The frame answers nothing and offers nothing on session `id`. */
  predicate Foreign(f: Frame, id: SessionId) {
    DecodeHello(f).Err? && (DecodeCommit(f).Ok? ==> DecodeCommit(f).value.previous != Some(id))
  }

  /** Neither a CLOSE nor a confirmation. */
  ghost predicate Courteous(fs: seq<Frame>) {
    forall f :: f in fs ==> HonestData(f) || f.messageType.Rekey?
  }

  /** What an aloof engine comes to: ended, or aloof as before; it speaks of its own session only. */
  ghost predicate Keeps(m: Machine, r: Machine)
    requires m.active.Some?
  {
    (r.phase.Ended? || (r.phase.Open? && Aloof(r) && Courteous(Sends(r.out))))
    && AllBuildOn(Sends(r.out), m.active.value.id)
  }

  lemma IdleKeeps(m: Machine, r: Machine)
    requires m.phase.Open? && m.active.Some? && Aloof(m) && AllBuildOn(Sends(m.out), m.active.value.id)
    requires Courteous(Sends(m.out))
    ensures Idles(m, r) || Starts(m, r) || Ends(m, r) ==> Keeps(m, r)
  {
    if Starts(m, r) {
      OfferDecodes(Purpose.Rekey, ActiveId(m), NextHalf(m));
    }
  }

  lemma WriteKeeps(m: Machine, r: Machine, content: seq<byte>)
    requires m.phase.Open? && m.active.Some? && Aloof(m) && m.out == [] && Writes(m, r, content)
    ensures Keeps(m, r)
  {
    hide SealedFrame, Starts, Idles, Talk, Questions, Events;
    var f := SealedFrame(m.active.value.sender, content);
    assert Carries(m.active.value.sender, f, content);
    CarriedIsData(m.active.value.sender, f, content);
    assert Sends([]) == [];
    assert Sends(Wrote(m, content).out) == [f];
    IdleKeeps(Wrote(m, content), r);
  }

  lemma TimeoutKeepsAloof(m: Machine, id: nat)
    requires Valid(m) && m.phase.Open? && m.out == [] && Aloof(m)
    ensures Keeps(m, OnTimeout(m, id))
  {
    hide Terminate, BeginRekey, FailRekey, Removed, KindOf, Tidy, TableOf, RunValid, Talk, Questions, Events, Ends,
      Starts, Idles;
    assert Sends([]) == [];
    if Permitted(m, Timeout(id)) {
      TimeoutOutcome(m, id);
      IdleKeeps(m, OnTimeout(m, id));
    } else {
      FailureSays(m.(deadlines := Removed(m.deadlines, id)), TransportTimeout);
    }
  }

  lemma DataKeepsAloof(m: Machine, f: Frame)
    requires Valid(m) && m.phase.Open? && m.active.Some? && m.out == [] && Aloof(m)
    ensures Keeps(m, OnData(m, f))
    ensures HonestData(f) ==> OnData(m, f).phase.Open?
  {
    hide Valid, OnUndecrypted, Carried, Decrypt, Keeps, Aloof, HonestData;
    assert Sends([]) == [];
    var (r, result) := DecryptActive(m, f);
    SameKeeps(m, r, OnData(m, f));
    if result.Ok? {
      CarriedKeepsAloof(r, Effect.Deliver(result.value));
    } else {
      UndecryptedKeepsAloof(r, f, result.error);
      if HonestData(f) {
        MildRefusal(m.active.value.receiver, f);
        UndecryptedStaysPut(r, f, result.error);
      }
    }
  }

  lemma SameKeeps(m: Machine, r: Machine, after: Machine)
    requires m.active.Some? && r.active.Some? && r.active.value.id == m.active.value.id && r.run == m.run
    ensures Keeps(r, after) <==> Keeps(m, after)
    ensures Aloof(r) <==> Aloof(m)
  {
  }

  lemma CarriedKeepsAloof(m: Machine, e: Effect)
    requires m.phase.Open? && m.active.Some? && Sends(m.out) == [] && Aloof(m) && e.Deliver?
    ensures Keeps(m, Carried(m, e)) && Carried(m, e).phase.Open?
  {
    hide MaybeTriggerRekey, Talk, Questions, Events, Sends, Delivers, Replay, Timely, Ends, Starts, Idles, Keeps;
    var took := Push(m.(messages := m.messages + 1), e);
    SameKeeps(m, took, MaybeTriggerRekey(took));
    BeginsOrIdles(took);
    IdleKeeps(took, MaybeTriggerRekey(took));
    StillOpen(took);
  }

  /** An engine that goes on with its run and sends nothing. */
  lemma SilentKeeps(m: Machine, r: Machine)
    requires m.phase.Open? && m.active.Some? && Aloof(m) && r.phase.Open? && r.run == m.run && Sends(r.out) == []
    ensures Keeps(m, r)
  {
  }

  lemma UndecryptedKeepsAloof(m: Machine, f: Frame, error: Error)
    requires m.phase.Open? && m.active.Some? && Sends(m.out) == [] && Aloof(m)
    ensures Keeps(m, OnUndecrypted(m, f, error))
  {
    hide Terminate, Decrypt, Talk, Questions, Events, Sends, Delivers, Replay, Timely, Ends, Starts, Idles, Keeps;
    var (r, content) := DecryptDraining(m, f);
    var ended := Terminate(r, ProtocolViolation, Some(ProtocolError));
    EndsAll(r, ProtocolViolation, Some(ProtocolError));
    IdleKeeps(r, ended);
    SameKeeps(m, r, ended);
    SilentKeeps(m, Push(r, Notify(DataRejected)));
    if content.Some? {
      SilentKeeps(m, Push(r, Effect.Deliver(content.value)));
    }
  }

  lemma StillOpen(m: Machine)
    requires m.phase.Open?
    ensures MaybeTriggerRekey(m).phase.Open?
  {
    hide BeginRekey;
    BeginsOrIdles(m);
  }

  lemma CloseKeepsAloof(m: Machine, f: Frame)
    requires Valid(m) && m.phase.Open? && m.out == [] && Aloof(m)
    ensures Keeps(m, OnCloseFrame(m, f))
  {
    hide DecodeClose, Terminate, Cancel, Tidy, TableOf, RunValid, Talk, Questions, Events, Ends, Starts, Idles;
    assert Sends([]) == [];
    EndsAll(m, ProtocolViolation, Some(ProtocolError));
    IdleKeeps(m, Terminate(m, ProtocolViolation, Some(ProtocolError)));
    if DecodeClose(f).Ok? {
      EndsAll(m, PeerUnauthenticated(DecodeClose(f).value.reason), None);
      IdleKeeps(m, Terminate(m, PeerUnauthenticated(DecodeClose(f).value.reason), None));
    }
  }

  /** What the engine may make of a frame that leads nowhere. */
  lemma ShrugsOff(m: Machine, error: Error)
    requires m.phase.Open? && m.active.Some? && m.out == [] && Aloof(m)
    ensures Keeps(m, m) && (m.late > 0 ==> Keeps(m, m.(late := m.late - 1)))
    ensures Keeps(m, NoteRekeyRejection(m))
    ensures Keeps(m, Terminate(m, ProtocolViolation, Some(ProtocolError)))
    ensures Keeps(m, FailRekey(m.(run := None), error))
  {
    hide Terminate, FailRekey, Talk, Questions, Ends, Starts, Idles;
    assert Sends([]) == [];
    EndsAll(m, ProtocolViolation, Some(ProtocolError));
    IdleKeeps(m, Terminate(m, ProtocolViolation, Some(ProtocolError)));
    FailureSays(m.(run := None), error);
  }

  /** A foreign rekey frame or confirmation finds no run to take a step in. */
  lemma RekeyKeepsAloof(m: Machine, f: Frame)
    requires Valid(m) && m.phase.Open? && m.out == [] && Aloof(m) && m.active.Some? && Foreign(f, m.active.value.id)
    ensures Keeps(m, OnRekeyFrame(m, f))
  {
    hide DecodeCommit, DecodeHello, Terminate, FailRekey, OnIncomingCommit, NoteRekeyRejection, Tidy, TableOf, Keeps;
    ShrugsOff(m, if DecodeHello(f).Err? then DecodeHello(f).error else InvalidHandshake);
  }

  /** Whatever an aloof engine is asked to do, it stays on its session, aloof, until it ends. */
  lemma StaysAloof(m: Machine, input: Input)
    requires Valid(m) && m.phase.Open? && m.active.Some? && m.out == [] && Aloof(m)
    requires input.FrameReceived? ==> Foreign(input.frame, m.active.value.id)
    ensures var r := Handle(m, input);
            Keeps(m, r) && (r.phase.Open? ==> r.active.Some? && r.active.value.id == m.active.value.id)
  {
    hide Terminate, OnSend, BeginRekey, OnTimeout, OnData, OnCloseFrame, OnRekeyFrame, Tidy, TableOf, Ends, Starts,
      Idles, Writes, Keeps, Foreign, Aloof, RunValid;
    assert m.(out := []) == m && Sends(m.out) == [];
    NoKeysYet(m);
    Isolation.RekeyIsIsolated(m, input);
    IdleKeeps(m, Handle(m, input));
    match input {
      case FrameReceived(f) =>
        DataKeepsAloof(m, f);
        CloseKeepsAloof(m, f);
        RekeyKeepsAloof(m, f);
        EndsAll(m, ProtocolViolation, Some(ProtocolError));
      case LocalSend(content) =>
        SendOutcome(m, content);
        if Writes(m, Handle(m, input), content) {
          WriteKeeps(m, Handle(m, input), content);
        }
      case Timeout(id) => TimeoutKeepsAloof(m, id);
      case RequestRekey => BeginsOrIdles(m);
      case LocalClose(reason) => EndsAll(m, Local, Some(reason));
      case TransportClosed => EndsAll(m, TransportLost, None);
      case Malformed(respond) => EndsAll(m, ProtocolViolation, if respond then Some(ProtocolError) else None);
      case Start => SelfIdle(m);
      case SasDecision(_) => SelfIdle(m);
    }
  }

  lemma SelfIdle(m: Machine)
    ensures Idles(m, m)
  {
  }

  lemma NoKeysYet(m: Machine)
    requires Valid(m) && m.phase.Open? && Aloof(m)
    ensures m.run.Some? ==> m.run.value.keys.None?
  {
    hide Tidy, TableOf;
  }

  // ------------------------------------------------------------------ two engines

  ghost predicate Stranger(e: Endpoint) {
    Valid(e.last) && e.last.out == [] && e.last.phase.Open? && e.last.active.Some? && Aloof(e.last)
    && (!Over(e) ==> e.engine == e.last) && AllBuildOn(e.outbox, e.last.active.value.id)
  }

  /** Both on sessions of their own, with nothing under way that builds on the other's. */
  ghost predicate Strangers(s: System) {
    Stranger(s.dialer) && Stranger(s.listener) && s.dialer.last.active.value.id != s.listener.last.active.value.id
  }

  predicate OneSession(s: System) {
    var x, y := s.dialer.engine, s.listener.engine;
    x.phase.Open? && y.phase.Open? && x.active.Some? && y.active.Some? && x.active.value.id == y.active.value.id
  }

  lemma StrangerActs(e: Endpoint, input: Input)
    requires Stranger(e) && !Over(e) && (input.FrameReceived? ==> Foreign(input.frame, e.last.active.value.id))
    ensures var e' := Applied(e, input);
            Stranger(e') && e'.last.active.value.id == e.last.active.value.id
            && (!Over(e') ==> exists sends :: Courteous(sends) && e'.outbox == e.outbox + sends)
  {
    hide Handle, Valid, Aloof, BuildsOn, Courteous, Foreign;
    var m := e.last;
    StaysAloof(m, input);
    HandleKeeps(m, input);
    var r := Handle(m, input);
    ClearedValid(r);
    ClearedAloof(r);
  }

  lemma ClearedValid(m: Machine)
    requires Valid(m)
    ensures Valid(m.(out := []))
  {
    hide Tidy, TableOf, RunValid;
  }

  lemma ClearedAloof(m: Machine)
    ensures Aloof(m.(out := [])) == Aloof(m)
  {
  }

  lemma HeadIsForeign(from: Endpoint, id: SessionId)
    requires Stranger(from) && from.outbox != [] && from.last.active.value.id != id
    ensures Foreign(from.outbox[0], id) && Stranger(Popped(from))
  {
    hide Valid, Aloof, DecodeHello, DecodeCommit;
    assert from.outbox[0] in from.outbox;
    assert forall f :: f in from.outbox[1..] ==> f in from.outbox;
  }

  lemma OnSession(e: Endpoint)
    requires Stranger(e)
    ensures e.last.active.Some?
  {
    hide Valid;
  }

  lemma StrangersStep(s: System, action: Action)
    requires Strangers(s) && Possible(s, action)
    ensures Strangers(StepSystem(s, action))
  {
    hide Stranger, Applied, Foreign;
    match action {
      case Act(side, input) => StrangerActs(Get(s, side), input);
      case Deliver(to) =>
        var from, reader := Get(s, Other(to)), Get(s, to);
        OnSession(reader);
        HeadIsForeign(from, reader.last.active.value.id);
        StrangerActs(reader, FrameReceived(from.outbox[0]));
    }
  }

  ghost predicate Can(s: System, action: Action, t: System) {
    Possible(s, action) && t == StepSystem(s, action)
  }

  /** The states of two engines under any local input, any timeout and any delivery. */
  ghost predicate FreeRun(states: seq<System>, actions: seq<Action>) {
    |states| == |actions| + 1
    && forall i, j {:trigger Can(states[i], actions[i], states[j])} ::
         0 <= i && j == i + 1 <= |actions| ==> Can(states[i], actions[i], states[j])
  }

  lemma {:induction false} StrangersForever(states: seq<System>, actions: seq<Action>, n: nat)
    requires FreeRun(states, actions) && n <= |actions| && Strangers(states[0])
    ensures Strangers(states[n])
  {
    hide Strangers, Possible, StepSystem;
    if n > 0 {
      StrangersForever(states, actions, n - 1);
      assert Can(states[n - 1], actions[n - 1], states[n]);
      StrangersStep(states[n - 1], actions[n - 1]);
    }
  }

  /** Strangers never share a session again. */
  lemma NeverAgain(states: seq<System>, actions: seq<Action>, n: nat)
    requires FreeRun(states, actions) && n <= |actions| && Strangers(states[0])
    ensures !OneSession(states[n])
  {
    hide Valid, Aloof, BuildsOn;
    StrangersForever(states, actions, n);
  }
}
