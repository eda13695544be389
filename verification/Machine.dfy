/**
 * The protocol engine as functions of its whole state. Each function mirrors one method of the engine
 * and appends the effects it emits to `out`; Engine.Engine carries the same steps out on fields.
 */
module Machine {
  import opened Protocol
  import opened Symbolic
  import opened Ratchet
  import opened Data
  import CanonicalMap

  const LATE_REKEY_FRAME_GRACE: nat := 8
  const REKEY_REJECTION_WARNING_THRESHOLD: nat := 3

  datatype DeadlineKind = HandshakeFrame | SasWait | HandshakeTotal | RekeyDue | Drain

  datatype Deadline = Deadline(id: nat, kind: DeadlineKind)

  datatype Input =
    | Start
    | FrameReceived(frame: Frame)
    | SasDecision(approved: bool)
    | LocalSend(content: seq<byte>)
    | LocalClose(reason: CloseReason)
    | RequestRekey
    | Timeout(id: nat)
    | TransportClosed
    | Malformed(respond: bool)

  datatype Effect =
    | Send(frame: Frame)
    | SetDeadline(id: nat, kind: DeadlineKind, after: nat)
    | CancelDeadline(id: nat)
    | RequestSas(hash: Hash, peer: Identity)
    | Deliver(content: seq<byte>)
    | Notify(event: Event)
    | CloseTransport

  datatype Event =
    | Established(peer: Identity)
    | RekeyStarted
    | RekeyCompleted
    | RekeyFailed(failure: RekeyFailure)
    | DataRejected
    | SendRejected(rejection: SendRejection)
    | Closed(cause: CloseCause)

  datatype RekeyFailure = TimedOut | PeerChanged | Invalid | Repeated

  datatype SendRejection = NotActive | TooLarge

  datatype CloseCause =
    | Local
    | PeerUnauthenticated(reason: CloseReason)
    | TransportLost
    | ProtocolViolation
    | Unauthentic
    | SasDeclined
    | Expired

  datatype Phase = Idle | Handshaking | Open | Ended

  datatype Step = Hello | Reveal | Sas | AuthResp | AuthInit | ConfirmResp | ConfirmInit

  datatype Session = Session(id: SessionId, peer: Identity, sender: Sender, receiver: Receiver)

  datatype Run = Run(
    purpose: Purpose, role: Role, previous: Option<SessionId>, ephemeral: Secret,
    localHello: HelloPayload, localHelloFrame: Option<Frame>, commit: Option<CommitPayload>, step: Step,
    remoteIdentity: Option<Identity>, shared: Option<SharedSecret>, transcript: Option<Transcript>,
    hash: Option<Hash>, keys: Option<SessionKeys>, early: Option<Frame>)

  datatype Candidate = Candidate(keys: SessionKeys, peer: Identity, role: Role)

  datatype Machine = Machine(
    role: Role, identity: Identity, source: nat, draws: nat,
    phase: Phase, run: Option<Run>, active: Option<Session>, draining: Option<Session>,
    deadlines: seq<Deadline>, nextDeadline: nat, messages: nat, limit: nat,
    blocked: bool, late: nat, rejections: nat, out: seq<Effect>)

  function NewMachine(role: Role, identity: Identity, source: nat, limit: nat): Machine {
    Machine(role, identity, source, 0, Idle, None, None, None, [], 0, 0, limit, false, 0, 0, [])
  }

  function SendDirection(role: Role): Direction {
    if role.Initiator? then InitiatorToResponder else ResponderToInitiator
  }

  function Opposite(role: Role): Role {
    if role.Initiator? then Responder else Initiator
  }

  function NewSession(keys: SessionKeys, role: Role, peer: Identity): Session {
    var sending, receiving := SendDirection(role), SendDirection(Opposite(role));
    Session(IdOf(keys), peer, NewSender(IdOf(keys), sending, Seed(keys, sending)),
            NewReceiver(IdOf(keys), receiving, Seed(keys, receiving)))
  }

  function ActiveId(m: Machine): Option<SessionId> {
    if m.active.Some? then Some(m.active.value.id) else None
  }

  function DrainingId(m: Machine): Option<SessionId> {
    if m.draining.Some? then Some(m.draining.value.id) else None
  }

  // ------------------------------------------------------------------ what the effects say

  function Sends(out: seq<Effect>): seq<Frame> {
    if out == [] then []
    else if out[|out| - 1].Send? then Sends(out[..|out| - 1]) + [out[|out| - 1].frame]
    else Sends(out[..|out| - 1])
  }

  function Delivers(out: seq<Effect>): seq<seq<byte>> {
    if out == [] then []
    else if out[|out| - 1].Deliver? then Delivers(out[..|out| - 1]) + [out[|out| - 1].content]
    else Delivers(out[..|out| - 1])
  }

  function Events(out: seq<Effect>): seq<Event> {
    if out == [] then []
    else if out[|out| - 1].Notify? then Events(out[..|out| - 1]) + [out[|out| - 1].event]
    else Events(out[..|out| - 1])
  }

  /** The effect that asks the human. */
  function Questions(out: seq<Effect>): nat {
    if out == [] then 0
    else Questions(out[..|out| - 1]) + if out[|out| - 1].RequestSas? then 1 else 0
  }

  /** Everything but the timers, in order. */
  function Talk(out: seq<Effect>): seq<Effect> {
    if out == [] then []
    else if IsTimer(out[|out| - 1]) then Talk(out[..|out| - 1])
    else Talk(out[..|out| - 1]) + [out[|out| - 1]]
  }

  predicate IsTimer(e: Effect) {
    e.SetDeadline? || e.CancelDeadline?
  }

  /** A list of deadline ids kept by following the timer effects. */
  function Replay(ids: seq<nat>, out: seq<Effect>): seq<nat> {
    if out == [] then ids else Follow(Replay(ids, out[..|out| - 1]), out[|out| - 1])
  }

  function Follow(ids: seq<nat>, e: Effect): seq<nat> {
    match e
    case SetDeadline(id, _, _) => ids + [id]
    case CancelDeadline(id) => Dropped(ids, id)
    case _ => ids
  }

  function Dropped(ids: seq<nat>, id: nat): seq<nat> {
    if ids == [] then [] else (if ids[0] == id then [] else [ids[0]]) + Dropped(ids[1..], id)
  }

  /** Every deadline is set for the time its kind allows. */
  predicate Timely(out: seq<Effect>) {
    out != [] ==> Timely(out[..|out| - 1]) && (out[|out| - 1].SetDeadline? ==>
        Proper(out[|out| - 1].kind, out[|out| - 1].after))
  }

  predicate Proper(kind: DeadlineKind, after: nat) {
    match kind
    case HandshakeFrame => after == 15
    case SasWait => after == 120
    case HandshakeTotal => after == 180
    case RekeyDue => after == 24 * 60 * 60 || after == 30
    case Drain => after == 15
  }

  function Push(m: Machine, e: Effect): (r: Machine)
    ensures Timely(r.out) <==> Timely(m.out) && (e.SetDeadline? ==> Proper(e.kind, e.after))
    ensures forall ids :: Replay(ids, r.out) == Follow(Replay(ids, m.out), e)
    ensures Talk(r.out) == if IsTimer(e) then Talk(m.out) else Talk(m.out) + [e]
    ensures Sends(r.out) == if e.Send? then Sends(m.out) + [e.frame] else Sends(m.out)
    ensures Delivers(r.out) == if e.Deliver? then Delivers(m.out) + [e.content] else Delivers(m.out)
    ensures Events(r.out) == if e.Notify? then Events(m.out) + [e.event] else Events(m.out)
    ensures Questions(r.out) == Questions(m.out) + if e.RequestSas? then 1 else 0
  {
    m.(out := m.out + [e])
  }

  /** The same frames, contents, events and questions. */
  predicate SameTalk(a: seq<Effect>, b: seq<Effect>) {
    Talk(a) == Talk(b) && Sends(a) == Sends(b) && Delivers(a) == Delivers(b) && Events(a) == Events(b)
        && Questions(a) == Questions(b)
  }

  // ------------------------------------------------------------------ deadlines

  /** Which kinds of deadline are armed. */
  datatype Table = Table(frame: bool, sas: bool, total: bool, due: bool, drain: bool)

  function Set(t: Table, kind: DeadlineKind, on: bool): Table {
    Table(if kind.HandshakeFrame? then on else t.frame, if kind.SasWait? then on else t.sas,
          if kind.HandshakeTotal? then on else t.total, if kind.RekeyDue? then on else t.due,
          if kind.Drain? then on else t.drain)
  }

  predicate Has(t: Table, kind: DeadlineKind) {
    (kind.HandshakeFrame? && t.frame) || (kind.SasWait? && t.sas) || (kind.HandshakeTotal? && t.total)
    || (kind.RekeyDue? && t.due) || (kind.Drain? && t.drain)
  }

  function One(b: bool): nat {
    if b then 1 else 0
  }

  function Size(t: Table): nat {
    One(t.frame) + One(t.sas) + One(t.total) + One(t.due) + One(t.drain)
  }

  const NOTHING_ARMED := Table(false, false, false, false, false)

  function TableOf(ds: seq<Deadline>): Table {
    if ds == [] then NOTHING_ARMED else Set(TableOf(ds[1..]), ds[0].kind, true)
  }

  /** The kind armed under an id. */
  function KindOf(ds: seq<Deadline>, id: nat): Option<DeadlineKind> {
    if ds == [] then None else if ds[0].id == id then Some(ds[0].kind) else KindOf(ds[1..], id)
  }

  /** No kind and no id twice, and every id already handed out. */
  predicate Tidy(ds: seq<Deadline>, bound: nat) {
    ds != [] ==>
      ds[0].id < bound && KindOf(ds[1..], ds[0].id).None? && !Has(TableOf(ds[1..]), ds[0].kind) && Tidy(ds[1..], bound)
  }

  function Ids(ds: seq<Deadline>): seq<nat> {
    if ds == [] then [] else [ds[0].id] + Ids(ds[1..])
  }

  lemma {:induction false} TidySize(ds: seq<Deadline>, bound: nat)
    requires Tidy(ds, bound)
    ensures |ds| == Size(TableOf(ds))
  {
    if ds != [] {
      TidySize(ds[1..], bound);
    }
  }

  function Without(ds: seq<Deadline>, kind: DeadlineKind): seq<Deadline> {
    if ds == [] then []
    else (if ds[0].kind == kind then [] else [ds[0]]) + Without(ds[1..], kind)
  }

  function Cancellations(ds: seq<Deadline>, kind: DeadlineKind): seq<Effect> {
    if ds == [] then []
    else (if ds[0].kind == kind then [CancelDeadline(ds[0].id)] else []) + Cancellations(ds[1..], kind)
  }

  function AllCancellations(ds: seq<Deadline>): seq<Effect> {
    if ds == [] then [] else [CancelDeadline(ds[0].id)] + AllCancellations(ds[1..])
  }

  lemma SetTwice(t: Table, j: DeadlineKind, k: DeadlineKind)
    ensures Set(Set(t, j, true), k, false) == if j == k then Set(t, k, false) else Set(Set(t, k, false), j, true)
    ensures Set(Set(t, j, true), k, true) == Set(Set(t, k, true), j, true)
  {
  }

  lemma SetHas(t: Table, j: DeadlineKind, k: DeadlineKind)
    ensures !Has(Set(t, k, false), k) && Has(Set(t, k, true), k)
    ensures j != k ==> (Has(Set(t, k, true), j) <==> Has(t, j)) && (Has(Set(t, k, false), j) <==> Has(t, j))
    ensures !Has(t, k) ==> Set(t, k, false) == t
  {
  }

  lemma {:induction false} WithoutTable(ds: seq<Deadline>, kind: DeadlineKind)
    ensures TableOf(Without(ds, kind)) == Set(TableOf(ds), kind, false)
  {
    hide Set, Has;
    if ds == [] {
      SetTwice(NOTHING_ARMED, kind, kind);
      SetHas(NOTHING_ARMED, kind, kind);
      NothingHas(kind);
    } else {
      WithoutTable(ds[1..], kind);
      SetTwice(TableOf(ds[1..]), ds[0].kind, kind);
      SetHas(TableOf(ds[1..]), ds[0].kind, kind);
      var rest := Without(ds[1..], kind);
      assert ([ds[0]] + rest)[1..] == rest;
      assert [] + rest == rest;
    }
  }

  lemma NothingHas(kind: DeadlineKind)
    ensures !Has(NOTHING_ARMED, kind)
  {
  }

  lemma {:induction false} WithoutKind(ds: seq<Deadline>, kind: DeadlineKind, bound: nat, id: nat)
    requires Tidy(ds, bound)
    ensures KindOf(Without(ds, kind), id) == if KindOf(ds, id) == Some(kind) then None else KindOf(ds, id)
  {
    hide Set, Has;
    if ds != [] {
      WithoutKind(ds[1..], kind, bound, id);
      var rest := Without(ds[1..], kind);
      assert ([ds[0]] + rest)[1..] == rest;
      assert [] + rest == rest;
    }
  }

  lemma {:induction false} WithoutTidy(ds: seq<Deadline>, kind: DeadlineKind, bound: nat)
    requires Tidy(ds, bound)
    ensures Tidy(Without(ds, kind), bound) && |Cancellations(ds, kind)| == One(Has(TableOf(ds), kind))
  {
    hide Set, Has;
    if ds == [] {
      NothingHas(kind);
    } else {
      var rest := Without(ds[1..], kind);
      WithoutTidy(ds[1..], kind, bound);
      WithoutKind(ds[1..], kind, bound, ds[0].id);
      WithoutTable(ds[1..], kind);
      SetTwice(TableOf(ds[1..]), ds[0].kind, kind);
      SetHas(TableOf(ds[1..]), ds[0].kind, kind);
      SetTwice(TableOf(ds[1..]), kind, ds[0].kind);
      SetHas(TableOf(ds[1..]), kind, ds[0].kind);
      assert ([ds[0]] + rest)[1..] == rest;
      assert [] + rest == rest;
    }
  }

  lemma {:induction false} AppendTable(ds: seq<Deadline>, d: Deadline)
    ensures TableOf(ds + [d]) == Set(TableOf(ds), d.kind, true)
  {
    hide Set, Has;
    if ds == [] {
      assert ds + [d] == [d];
    } else {
      AppendTable(ds[1..], d);
      SetTwice(TableOf(ds[1..]), ds[0].kind, d.kind);
      SetHas(TableOf(ds[1..]), ds[0].kind, d.kind);
      assert (ds + [d])[1..] == ds[1..] + [d];
    }
  }

  lemma {:induction false} AppendKind(ds: seq<Deadline>, d: Deadline, id: nat)
    ensures KindOf(ds + [d], id) == if KindOf(ds, id).Some? then KindOf(ds, id) else if id == d.id then Some(d.kind)
        else None
  {
    if ds == [] {
      assert ds + [d] == [d];
    } else {
      AppendKind(ds[1..], d, id);
      assert (ds + [d])[1..] == ds[1..] + [d];
    }
  }

  lemma {:induction false} AppendTidy(ds: seq<Deadline>, d: Deadline)
    requires Tidy(ds, d.id) && !Has(TableOf(ds), d.kind)
    ensures Tidy(ds + [d], d.id + 1)
  {
    hide Set, Has;
    if ds == [] {
      assert ds + [d] == [d];
      NothingHas(d.kind);
    } else {
      SetTwice(TableOf(ds[1..]), ds[0].kind, d.kind);
      SetHas(TableOf(ds[1..]), ds[0].kind, d.kind);
      SetTwice(TableOf(ds[1..]), d.kind, ds[0].kind);
      SetHas(TableOf(ds[1..]), d.kind, ds[0].kind);
      TailHas(TableOf(ds[1..]), ds[0].kind, d.kind);
      AppendTidy(ds[1..], d);
      AppendKind(ds[1..], d, ds[0].id);
      AppendTable(ds[1..], d);
      assert (ds + [d])[1..] == ds[1..] + [d];
    }
  }

  lemma SetBack(t: Table, k: DeadlineKind)
    ensures Set(Set(t, k, false), k, true) == Set(t, k, true)
  {
  }

  lemma TailHas(t: Table, j: DeadlineKind, k: DeadlineKind)
    requires !Has(Set(t, j, true), k)
    ensures !Has(t, k) && j != k
  {
  }

  /** Cancellations say nothing to the peer or the user. */
  predicate Quiet(es: seq<Effect>) {
    forall e :: e in es ==> e.CancelDeadline?
  }

  lemma {:induction false} CancellationsQuiet(ds: seq<Deadline>, kind: DeadlineKind)
    ensures Quiet(Cancellations(ds, kind)) && Quiet(AllCancellations(ds)) && |AllCancellations(ds)| == |ds|
  {
    if ds != [] {
      CancellationsQuiet(ds[1..], kind);
    }
  }

  lemma {:induction false} QuietTail(out: seq<Effect>, es: seq<Effect>)
    requires Quiet(es)
    ensures SameTalk(out + es, out) && (Timely(out + es) <==> Timely(out))
  {
    if es == [] {
      assert out + es == out;
    } else {
      var n := |es| - 1;
      QuietTail(out, es[..n]);
      assert (out + es)[..|out + es| - 1] == out + es[..n];
      assert es[n] in es;
    }
  }

  /** Only the deadlines and the effects differ. */
  predicate OnlyTimers(m: Machine, r: Machine) {
    r == m.(deadlines := r.deadlines, nextDeadline := r.nextDeadline, out := r.out)
  }

  function Cancel(m: Machine, kind: DeadlineKind): (r: Machine)
    ensures OnlyTimers(m, r) && SameTalk(r.out, m.out) && r.nextDeadline == m.nextDeadline
    ensures Timely(r.out) <==> Timely(m.out)
    ensures Tidy(m.deadlines, m.nextDeadline) ==>
              Tidy(r.deadlines, r.nextDeadline) && TableOf(r.deadlines) == Set(TableOf(m.deadlines), kind, false)
              && |r.out| == |m.out| + One(Has(TableOf(m.deadlines), kind))
  {
    CancellationsQuiet(m.deadlines, kind);
    QuietTail(m.out, Cancellations(m.deadlines, kind));
    if Tidy(m.deadlines, m.nextDeadline) then
      WithoutTidy(m.deadlines, kind, m.nextDeadline);
      WithoutTable(m.deadlines, kind);
      m.(deadlines := Without(m.deadlines, kind), out := m.out + Cancellations(m.deadlines, kind))
    else
      m.(deadlines := Without(m.deadlines, kind), out := m.out + Cancellations(m.deadlines, kind))
  }

  function CancelAll(m: Machine): (r: Machine)
    ensures OnlyTimers(m, r) && SameTalk(r.out, m.out) && r.nextDeadline == m.nextDeadline
    ensures r.deadlines == [] && |r.out| == |m.out| + |m.deadlines| && (Timely(r.out) <==> Timely(m.out))
  {
    CancellationsQuiet(m.deadlines, HandshakeFrame);
    QuietTail(m.out, AllCancellations(m.deadlines));
    m.(deadlines := [], out := m.out + AllCancellations(m.deadlines))
  }

  function Arm(m: Machine, kind: DeadlineKind, after: nat): (r: Machine)
    ensures OnlyTimers(m, r) && SameTalk(r.out, m.out)
    ensures Tidy(m.deadlines, m.nextDeadline) ==>
              Tidy(r.deadlines, r.nextDeadline) && TableOf(r.deadlines) == Set(TableOf(m.deadlines), kind, true)
              && |r.out| == |m.out| + One(Has(TableOf(m.deadlines), kind)) + 1
  {
    var c := Cancel(m, kind);
    var d := Deadline(c.nextDeadline, kind);
    var r := Push(c.(nextDeadline := d.id + 1, deadlines := c.deadlines + [d]), SetDeadline(d.id, kind, after));
    AppendTable(c.deadlines, d);
    SetTwice(TableOf(m.deadlines), kind, kind);
    SetHas(TableOf(m.deadlines), kind, kind);
    SetBack(TableOf(m.deadlines), kind);
    if Tidy(m.deadlines, m.nextDeadline) then AppendTidy(c.deadlines, d); r else r
  }

  /** Frames that follow the SAS point of an initial handshake are bounded by the total deadline only. */
  predicate FrameBounded(purpose: Purpose, step: Step) {
    purpose == Purpose.Rekey || step.Hello? || step.Reveal? || step.ConfirmResp? || step.ConfirmInit?
  }

  function RearmFrameDeadline(m: Machine, purpose: Purpose, step: Step): (r: Machine)
    ensures OnlyTimers(m, r) && SameTalk(r.out, m.out)
    ensures Tidy(m.deadlines, m.nextDeadline) ==>
              Tidy(r.deadlines, r.nextDeadline)
              && TableOf(r.deadlines) == Set(TableOf(m.deadlines), HandshakeFrame, FrameBounded(purpose, step))
              && |r.out| == |m.out| + One(TableOf(m.deadlines).frame) + One(FrameBounded(purpose, step))
  {
    var m := Cancel(m, HandshakeFrame);
    if FrameBounded(purpose, step) then Arm(m, HandshakeFrame, HANDSHAKE_FRAME_TIMEOUT_SECS) else m
  }

  /** Neither deadline of a handshake is armed any more. */
  function Disarmed(m: Machine): Machine {
    Cancel(Cancel(m, HandshakeFrame), HandshakeTotal)
  }

  function Removed(ds: seq<Deadline>, id: nat): seq<Deadline> {
    if ds == [] then [] else if ds[0].id == id then ds[1..] else [ds[0]] + Removed(ds[1..], id)
  }

  function OnTimeout(m: Machine, id: nat): Machine {
    match KindOf(m.deadlines, id)
    case None => m
    case Some(kind) =>
      var m := m.(deadlines := Removed(m.deadlines, id));
      match kind
      case HandshakeFrame => OnHandshakeTimeout(m)
      case HandshakeTotal => OnHandshakeTimeout(m)
      case SasWait => Terminate(m, Expired, Some(AuthenticationFailure))
      case RekeyDue => BeginRekey(m.(blocked := false, late := 0))
      case Drain => m.(draining := None)
  }

  function OnHandshakeTimeout(m: Machine): Machine {
    if m.phase.Handshaking? then Terminate(m, Expired, Some(ResourceLimit))
    else if m.run.Some? then FailRekey(m, TransportTimeout)
    else m
  }

  // ------------------------------------------------------------------ start

  function StartMachine(m: Machine): Machine {
    if !m.phase.Idle? then m
    else
      var m := Arm(m.(phase := Handshaking), HandshakeTotal, HANDSHAKE_TOTAL_TIMEOUT_SECS);
      if m.role.Initiator? then
        var (m, started) := StartInitiatorRun(m, Initial, None);
        match started
        case Err(error) => FailInitial(m, error)
        case Ok(_) => RearmFrameDeadline(m, Initial, Hello)
      else Arm(m, HandshakeFrame, HANDSHAKE_FRAME_TIMEOUT_SECS)
  }

  function FreshSecret(m: Machine): Secret {
    Secret(m.source, m.draws)
  }

  function FreshNonce(m: Machine): Nonce {
    Nonce(m.source, m.draws + 1)
  }

  function Drawn(m: Machine): Machine {
    m.(draws := m.draws + 2)
  }

  /** The hello an engine makes of its next two draws. */
  function LocalHello(m: Machine, cipherSuite: nat, purpose: Purpose, role: Role,
      previous: Option<SessionId>): HelloPayload {
    HelloPayload(cipherSuite, purpose, role, m.identity, PublicOf(FreshSecret(m)), FreshNonce(m), previous)
  }

  function StartInitiatorRun(m: Machine, purpose: Purpose, previous: Option<SessionId>): (Machine, Result<()>) {
    var ephemeral, hello, m := FreshSecret(m), LocalHello(m, 1, purpose, Initiator, previous), Drawn(m);
    match EncodeHello(hello)
    case Err(error) => (m, Err(error))
    case Ok(helloFrame) =>
      match EncodeCommit(CommitPayload(1, purpose, CommitmentTo(hello), previous))
      case Err(error) => (m, Err(error))
      case Ok(commitFrame) =>
        var run := Run(purpose, Initiator, previous, ephemeral, hello, Some(helloFrame), None, Hello,
                       None, None, None, None, None, None);
        (Push(m, Send(commitFrame)).(run := Some(run)), Ok(()))
  }

  function StartResponderRun(m: Machine, commit: CommitPayload, announce: bool): (Machine, Result<()>) {
    var ephemeral, hello, m :=
      FreshSecret(m), LocalHello(m, commit.cipherSuite, commit.purpose, Responder, commit.previous), Drawn(m);
    match EncodeHello(hello)
    case Err(error) => (m, Err(error))
    case Ok(helloFrame) =>
      var run := Run(commit.purpose, Responder, commit.previous, ephemeral, hello, None, Some(commit), Reveal,
                     None, None, None, None, None, None);
      var m := Budgeted(Push(m, Send(helloFrame)).(run := Some(run)), commit.purpose, announce);
      (RearmFrameDeadline(m, commit.purpose, Reveal), Ok(()))
  }

  /** A responder's rekey gets its own total deadline; an initial handshake has had one since the start. */
  function Budgeted(m: Machine, purpose: Purpose, announce: bool): Machine {
    if purpose == Purpose.Rekey then
      var m := Arm(m, HandshakeTotal, HANDSHAKE_TOTAL_TIMEOUT_SECS);
      if announce then Push(m, Notify(RekeyStarted)) else m
    else m
  }

  // ------------------------------------------------------------------ frames

  function OnFrame(m: Machine, f: Frame): Machine {
    match m.phase
    case Idle => Terminate(m, ProtocolViolation, Some(ProtocolError))
    case Ended => Terminate(m, ProtocolViolation, Some(ProtocolError))
    case Handshaking => OnFrameHandshaking(m, f)
    case Open =>
      match f.messageType
      case Data => OnData(m, f)
      case Close => OnCloseFrame(m, f)
      case Rekey => OnRekeyFrame(m, f)
      case SessionConfirm => OnRekeyFrame(m, f)
      case Handshake => Terminate(m, ProtocolViolation, Some(ProtocolError))
  }

  function OnFrameHandshaking(m: Machine, f: Frame): Machine {
    if f.messageType.Close? then OnCloseFrame(m, f)
    else if m.run.None? then
      var (m, accepted) := AcceptFirstCommit(m, f);
      match accepted
      case Err(error) => FailInitial(m, error)
      case Ok(_) => m
    else
      var (m, result) := DriveRun(m, f);
      match result
      case Err(error) => FailInitial(m, error)
      case Ok(Some(candidate)) => CompleteInitial(m, candidate)
      case Ok(None) => m
  }

  function AcceptFirstCommit(m: Machine, f: Frame): (Machine, Result<()>) {
    match DecodeCommit(f)
    case Err(error) => (m, Err(error))
    case Ok(commit) =>
      if commit.cipherSuite != 1 || !commit.purpose.Initial? || commit.previous.Some? then (m, Err(InvalidHandshake))
      else StartResponderRun(m, commit, true)
  }

  /** What one step of a run leaves: the engine, the run and the outcome. */
  datatype Stepped = Stepped(machine: Machine, run: Run, result: Result<Option<Candidate>>)

  /** The run is taken out first, so an error discards it. */
  function DriveRun(m: Machine, f: Frame): (Machine, Result<Option<Candidate>>) {
    match m.run
    case None => (m, Err(InvalidStateTransition))
    case Some(run) =>
      var s := StepRun(m.(run := None), run, f);
      (if s.result == Ok(None) then s.machine.(run := Some(s.run)) else s.machine, s.result)
  }

  function CheckRemoteHello(m: Machine, run: Run, remote: HelloPayload, expected: Role): Result<()> {
    if remote.role != expected || remote.cipherSuite != run.localHello.cipherSuite || remote.purpose != run.purpose
       || remote.previous != run.previous || remote.identity == run.localHello.identity
       || remote.ephemeral == run.localHello.ephemeral
    then Err(InvalidHandshake)
    else if run.purpose == Purpose.Rekey then
      if m.active.None? then Err(InvalidStateTransition)
      else if remote.identity != m.active.value.peer then Err(IdentityMismatch)
      else Ok(())
    else Ok(())
  }

  function StepRun(m: Machine, run: Run, f: Frame): Stepped {
    match run.step
    case Hello => StepHello(m, run, f)
    case Reveal => StepReveal(m, run, f)
    case Sas => StepSas(m, run, f)
    case AuthResp => StepAuthResp(m, run, f)
    case AuthInit => StepAuthInit(m, run, f)
    case ConfirmResp => StepConfirmResp(m, run, f)
    case ConfirmInit => StepConfirmInit(m, run, f)
  }

  function StepHello(m: Machine, run: Run, f: Frame): Stepped {
    match DecodeHello(f)
    case Err(error) => Stepped(m, run, Err(error))
    case Ok(remote) =>
      match CheckRemoteHello(m, run, remote, Responder)
      case Err(error) => Stepped(m, run, Err(error))
      case Ok(_) =>
        match run.localHelloFrame
        case None => Stepped(m, run, Err(InvalidStateTransition))
        case Some(helloFrame) => AfterHellos(Push(m, Send(helloFrame)), run.(localHelloFrame := None), remote)
  }

  function StepReveal(m: Machine, run: Run, f: Frame): Stepped {
    match DecodeHello(f)
    case Err(error) => Stepped(m, run, Err(error))
    case Ok(remote) =>
      match CheckRemoteHello(m, run, remote, Initiator)
      case Err(error) => Stepped(m, run, Err(error))
      case Ok(_) =>
        match run.commit
        case None => Stepped(m, run, Err(InvalidStateTransition))
        case Some(commit) =>
          if CommitmentTo(remote) != commit.commitment then Stepped(m, run, Err(InvalidHandshake))
          else AfterHellos(m, run, remote)
  }

  /** The initiator's AUTH may arrive while the local user still decides; it waits. */
  function StepSas(m: Machine, run: Run, f: Frame): Stepped {
    if run.role.Responder? && run.early.None? && f.messageType.Handshake?
    then Stepped(m, run.(early := Some(f)), Ok(None))
    else Stepped(m, run, Err(InvalidStateTransition))
  }

  function StepAuthResp(m: Machine, run: Run, f: Frame): Stepped {
    match DecodeAuth(f)
    case Err(error) => Stepped(m, run, Err(error))
    case Ok(auth) =>
      if auth.stage != 1 || auth.responderSignature.None? then Stepped(m, run, Err(InvalidHandshake))
      else
        match VerifyAuth(run, auth)
        case Err(error) => Stepped(m, run, Err(error))
        case Ok(keys) =>
          var confirm := ConfirmPayload(IdOf(keys), Initiator, MacOf(keys, keys.hash, true));
          var m := Push(m, Send(EncodeConfirm(confirm)));
          var run := run.(keys := Some(keys), step := ConfirmResp);
          Stepped(RearmFrameDeadline(m, run.purpose, run.step), run, Ok(None))
  }

  function StepAuthInit(m: Machine, run: Run, f: Frame): Stepped {
    match DecodeAuth(f)
    case Err(error) => Stepped(m, run, Err(error))
    case Ok(auth) =>
      if auth.stage != 0 || auth.responderSignature.Some? then Stepped(m, run, Err(InvalidHandshake))
      else
        match VerifyAuth(run, auth)
        case Err(error) => Stepped(m, run, Err(error))
        case Ok(keys) =>
          match run.transcript
          case None => Stepped(m, run, Err(InvalidStateTransition))
          case Some(transcript) =>
            match EncodeAuth(AuthPayload(transcript, 1, auth.initiatorSignature,
                Some(SignedBy(m.identity, keys.hash, false))))
            case Err(error) => Stepped(m, run, Err(error))
            case Ok(response) =>
              var m := Push(m, Send(response));
              var run := run.(keys := Some(keys), step := ConfirmInit);
              Stepped(RearmFrameDeadline(m, run.purpose, run.step), run, Ok(None))
  }

  function StepConfirmResp(m: Machine, run: Run, f: Frame): Stepped {
    match DecodeConfirm(f)
    case Err(error) => Stepped(m, run, Err(error))
    case Ok(confirm) =>
      if run.keys.None? || run.hash.None? then Stepped(m, run, Err(InvalidStateTransition))
      else
        match VerifyConfirm(confirm, run.keys.value, run.hash.value, Responder)
        case Err(error) => Stepped(m, run, Err(error))
        case Ok(_) => Stepped(m, run, CandidateOf(run, run.keys.value))
  }

  function StepConfirmInit(m: Machine, run: Run, f: Frame): Stepped {
    match DecodeConfirm(f)
    case Err(error) => Stepped(m, run, Err(error))
    case Ok(confirm) =>
      if run.keys.None? || run.hash.None? then Stepped(m, run, Err(InvalidStateTransition))
      else
        var keys, hash := run.keys.value, run.hash.value;
        match VerifyConfirm(confirm, keys, hash, Initiator)
        case Err(error) => Stepped(m, run, Err(error))
        case Ok(_) =>
          var reply := ConfirmPayload(IdOf(keys), Responder, MacOf(keys, hash, false));
          Stepped(Push(m, Send(EncodeConfirm(reply))), run, CandidateOf(run, keys))
  }

  function VerifyAuth(run: Run, auth: AuthPayload): Result<SessionKeys> {
    if run.transcript.None? || run.shared.None? then Err(InvalidStateTransition)
    else VerifyHandshake(auth, run.transcript.value, run.shared.value)
  }

  function CandidateOf(run: Run, keys: SessionKeys): Result<Option<Candidate>> {
    match run.remoteIdentity
    case None => Err(InvalidStateTransition)
    case Some(peer) => Ok(Some(Candidate(keys, peer, run.role)))
  }

  /** Both HELLOs are known and validated. */
  function AfterHellos(m: Machine, run: Run, remote: HelloPayload): Stepped {
    var hellos := if run.role.Initiator? then (run.localHello, remote) else (remote, run.localHello);
    match TranscriptFromHellos(hellos.0, hellos.1)
    case Err(error) => Stepped(m, run, Err(error))
    case Ok(transcript) =>
      match DiffieHellman(run.ephemeral, remote.ephemeral)
      case Err(error) => Stepped(m, run, Err(error))
      case Ok(shared) =>
        var run := Informed(run, remote.identity, transcript, shared);
        if run.purpose.Initial? then AskUser(m, run, transcript, remote.identity) else AfterApproval(m, run)
  }

  function Informed(run: Run, remote: Identity, transcript: Transcript, shared: SharedSecret): Run {
    run.(shared := Some(shared), transcript := Some(transcript), hash := Some(HashOf(transcript)),
         remoteIdentity := Some(remote))
  }

  /** The short authentication string is a function of the transcript hash. */
  function AskUser(m: Machine, run: Run, transcript: Transcript, remote: Identity): Stepped {
    var m := Arm(Cancel(m, HandshakeFrame), SasWait, SAS_DECISION_TIMEOUT_SECS);
    Stepped(Push(m, RequestSas(HashOf(transcript), remote)), run.(step := Sas), Ok(None))
  }

  /** SAS approved, or identity continuity established for a rekey. */
  function AfterApproval(m: Machine, run: Run): Stepped {
    if run.hash.None? || run.transcript.None? then Stepped(m, run, Err(InvalidStateTransition))
    else if run.role.Initiator? then
      match EncodeAuth(AuthPayload(run.transcript.value, 0, SignedBy(m.identity, run.hash.value, true), None))
      case Err(error) => Stepped(m, run, Err(error))
      case Ok(frame) =>
        var m, run := Push(m, Send(frame)), run.(step := AuthResp);
        Stepped(RearmFrameDeadline(m, run.purpose, run.step), run, Ok(None))
    else
      var run := run.(step := AuthInit);
      match run.early
      case Some(early) => StepAuthInit(m, run.(early := None), early)
      case None => Stepped(RearmFrameDeadline(m, run.purpose, run.step), run, Ok(None))
  }

  // ------------------------------------------------------------------ SAS and completion

  function OnSas(m: Machine, approved: bool): Machine {
    if !m.phase.Handshaking? || m.run.None? || !m.run.value.step.Sas? then m
    else
      var m := Cancel(m, SasWait);
      if !approved then Terminate(m, SasDeclined, Some(AuthenticationFailure)) else Approve(m)
  }

  function Approve(m: Machine): Machine
    requires m.run.Some?
  {
    var s := AfterApproval(m.(run := None), m.run.value);
    Concluded(s.machine, s.run, s.result)
  }

  function Concluded(m: Machine, run: Run, result: Result<Option<Candidate>>): Machine {
    match result
    case Err(error) => FailInitial(m, error)
    case Ok(Some(candidate)) => CompleteInitial(m, candidate)
    case Ok(None) => m.(run := Some(run))
  }

  /** A new active session; what was active drains. */
  function Replaced(m: Machine, c: Candidate): Machine {
    m.(draining := m.active, active := Some(NewSession(c.keys, c.role, c.peer)))
  }

  function CompleteInitial(m: Machine, c: Candidate): Machine {
    var m := Cancel(Cancel(Cancel(m, HandshakeFrame), SasWait), HandshakeTotal);
    var m := m.(active := Some(NewSession(c.keys, c.role, c.peer)));
    var m := Arm(m.(phase := Open, messages := 0, late := 0, rejections := 0), RekeyDue, REKEY_INTERVAL_SECS);
    Push(m, Notify(Established(c.peer)))
  }

  function CompleteRekey(m: Machine, c: Candidate): Machine {
    if m.active.None? || m.active.value.peer != c.peer || m.active.value.id == IdOf(c.keys)
    then FailRekey(m, IdentityMismatch)
    else Superseded(m, c)
  }

  function Superseded(m: Machine, c: Candidate): Machine {
    var m := Replaced(Disarmed(m), c);
    var m := Arm(Arm(m, Drain, REKEY_DRAIN_TIMEOUT_SECS), RekeyDue, REKEY_INTERVAL_SECS);
    Push(m.(messages := 0, blocked := false, late := 0, rejections := 0), Notify(RekeyCompleted))
  }

  // ------------------------------------------------------------------ rekey

  function BeginRekey(m: Machine): Machine {
    if !m.phase.Open? || m.run.Some? || m.active.None? then m
    else
      var (m, started) := StartInitiatorRun(m, Purpose.Rekey, ActiveId(m));
      match started
      case Err(error) => FailRekey(m, error)
      case Ok(_) =>
        var m := Arm(m, HandshakeTotal, HANDSHAKE_TOTAL_TIMEOUT_SECS);
        Push(RearmFrameDeadline(m, Purpose.Rekey, Hello), Notify(RekeyStarted))
  }

  /** A COMMIT that names the active session as its predecessor. */
  predicate NamesActive(m: Machine, commit: CommitPayload) {
    commit.cipherSuite == 1 && commit.purpose == Purpose.Rekey && commit.previous.Some?
        && commit.previous == ActiveId(m)
  }

  function OnRekeyFrame(m: Machine, f: Frame): Machine {
    match m.run
    case None => OnRekeyFrameIdle(m, f)
    case Some(run) =>
      if run.role.Initiator? && run.step.Hello? && f.messageType.Rekey? && DecodeCommit(f).Ok?
      then ResolveGlare(m, DecodeCommit(f).value)
      else RekeyDriven(DriveRun(m, f).0, DriveRun(m, f).1)
  }

  /** How a step of a rekey ends. */
  function RekeyDriven(m: Machine, result: Result<Option<Candidate>>): Machine {
    match result
    case Err(error) => FailRekey(m, error)
    case Ok(Some(candidate)) => CompleteRekey(m, candidate)
    case Ok(None) => m
  }

  function OnRekeyFrameIdle(m: Machine, f: Frame): Machine {
    if f.messageType.Rekey? && DecodeCommit(f).Ok? && NamesActive(m, DecodeCommit(f).value)
    then OnIncomingCommit(m.(late := 0), DecodeCommit(f).value, true)
    else OnUnexpected(m, f)
  }

  /** Right after a failed rekey a few late frames are dropped. */
  function OnUnexpected(m: Machine, f: Frame): Machine {
    if m.late > 0 then m.(late := m.late - 1)
    else if f.messageType.SessionConfirm? then Terminate(m, ProtocolViolation, Some(ProtocolError))
    else NoteRekeyRejection(m)
  }

  function OnIncomingCommit(m: Machine, commit: CommitPayload, announce: bool): Machine {
    if !NamesActive(m, commit) then NoteRekeyRejection(m)
    else
      var (m, started) := StartResponderRun(m.(rejections := 0), commit, announce);
      match started
      case Err(error) => FailRekey(m, error)
      case Ok(_) => m
  }

  /** The greater raw identity key stays initiator; the losing side drops its attempt and answers. */
  function ResolveGlare(m: Machine, commit: CommitPayload): Machine {
    if m.active.None? then m
    else if commit.previous != (if m.run.Some? then m.run.value.previous else None) then NoteRekeyRejection(m)
    else if LocalIdentityWinsGlare(m.identity, m.active.value.peer) then m
    else OnIncomingCommit(Disarmed(m.(run := None)), commit, false)
  }

  /** The engine without its run and the run's deadlines. */
  function Discarded(m: Machine): Machine {
    Disarmed(m.(run := None, late := LATE_REKEY_FRAME_GRACE))
  }

  /** A failed rekey discards the candidate only. */
  function FailRekey(m: Machine, error: Error): Machine {
    var m := Arm(Discarded(m).(blocked := true), RekeyDue, REKEY_RETRY_SECS);
    Push(m, Notify(RekeyFailed(FailureOf(error))))
  }

  function FailureOf(error: Error): RekeyFailure {
    match error
    case TransportTimeout => TimedOut
    case IdentityMismatch => PeerChanged
    case _ => Invalid
  }

  function NoteRekeyRejection(m: Machine): Machine {
    if m.rejections >= REKEY_REJECTION_WARNING_THRESHOLD then m
    else
      var m := m.(rejections := m.rejections + 1);
      if m.rejections == REKEY_REJECTION_WARNING_THRESHOLD then Push(m, Notify(RekeyFailed(Repeated))) else m
  }

  function FailInitial(m: Machine, error: Error): Machine {
    match error
    case SasRejected => Terminate(m, SasDeclined, Some(AuthenticationFailure))
    case SignatureInvalid => Terminate(m, Unauthentic, Some(AuthenticationFailure))
    case ConfirmationInvalid => Terminate(m, Unauthentic, Some(AuthenticationFailure))
    case IdentityMismatch => Terminate(m, Unauthentic, Some(IdentityChanged))
    case _ => Terminate(m, ProtocolViolation, Some(ProtocolError))
  }

  // ------------------------------------------------------------------ DATA

  function OnSend(m: Machine, content: seq<byte>): Machine {
    if |content| > MAX_CONTENT then Push(m, Notify(SendRejected(TooLarge)))
    else if m.active.None? || !m.phase.Open? then Push(m, Notify(SendRejected(NotActive)))
    else
      var (m, frame) := SealActive(m, content);
      OnSealed(m, frame)
  }

  function OnSealed(m: Machine, frame: Result<Frame>): Machine {
    match frame
    case Ok(f) => Carried(m, Send(f))
    case Err(DataTooLarge) => Push(m, Notify(SendRejected(TooLarge)))
    case Err(_) => Terminate(m, ProtocolViolation, Some(ProtocolError))
  }

  /** One more message went through; enough of them trigger a rekey. */
  function Carried(m: Machine, e: Effect): Machine {
    MaybeTriggerRekey(Push(m.(messages := m.messages + 1), e))
  }

  /** The active session's sender seals the content, or refuses and stays as it is. */
  function SealActive(m: Machine, content: seq<byte>): (Machine, Result<Frame>)
    requires m.active.Some?
  {
    var sender := m.active.value.sender;
    match EncryptError(sender, content)
    case Some(error) => (m, Err(error))
    case None => (m.(active := Some(m.active.value.(sender := AfterEncrypt(sender)))), Ok(SealedFrame(sender, content)))
  }

  function OnData(m: Machine, f: Frame): Machine {
    if m.active.None? then m
    else
      var (m, result) := DecryptActive(m, f);
      match result
      case Ok(content) => Carried(m, Deliver(content))
      case Err(error) => OnUndecrypted(m, f, error)
  }

  function DecryptActive(m: Machine, f: Frame): (Machine, Result<seq<byte>>)
    requires m.active.Some?
  {
    var (receiver, result) := Decrypt(m.active.value.receiver, f);
    (m.(active := Some(m.active.value.(receiver := receiver))), result)
  }

  /** The active session refused the frame; the draining one may still take it. */
  function OnUndecrypted(m: Machine, f: Frame, error: Error): Machine {
    var (m, content) := DecryptDraining(m, f);
    if content.Some? then Push(m, Deliver(content.value))
    else if CanonicalMap.IsMalformed(error) then Terminate(m, ProtocolViolation, Some(ProtocolError))
    else Push(m, Notify(DataRejected))
  }

  function DecryptDraining(m: Machine, f: Frame): (Machine, Option<seq<byte>>) {
    if m.draining.None? then (m, None)
    else
      var (receiver, result) := Decrypt(m.draining.value.receiver, f);
      (m.(draining := Some(m.draining.value.(receiver := receiver))), if result.Ok? then Some(result.value) else None)
  }

  function MaybeTriggerRekey(m: Machine): Machine {
    if m.messages >= m.limit && !m.blocked && m.run.None? then BeginRekey(m) else m
  }

  // ------------------------------------------------------------------ CLOSE

  function OnCloseFrame(m: Machine, f: Frame): Machine {
    match DecodeClose(f)
    case Err(_) => Terminate(m, ProtocolViolation, Some(ProtocolError))
    case Ok(close) =>
      if m.phase.Handshaking? then
        if close.sessionId.None? then Terminate(m, PeerUnauthenticated(close.reason), None) else m
      else if close.sessionId.Some? && close.sessionId == ActiveId(m)
        then Terminate(m, PeerUnauthenticated(close.reason), None)
      else if close.sessionId.Some? && close.sessionId == DrainingId(m)
        then Cancel(m.(draining := None), Drain)
      else m
  }

  /** The CLOSE that announces the end, if the peer is to be told. */
  function Told(m: Machine, notifyPeer: Option<CloseReason>): Machine {
    if notifyPeer.Some? then Push(m, Send(EncodeClose(ClosePayload(ActiveId(m), notifyPeer.value)))) else m
  }

  function Terminate(m: Machine, cause: CloseCause, notifyPeer: Option<CloseReason>): Machine {
    Push(Push(Told(CancelAll(m), notifyPeer), Notify(Closed(cause))), CloseTransport)
      .(run := None, active := None, draining := None, phase := Ended)
  }

  // ------------------------------------------------------------------ one input

  /** What an engine that is not closed does with one input. */
  function Respond(m: Machine, input: Input): Machine {
    match input
    case Start => StartMachine(m)
    case FrameReceived(f) => OnFrame(m, f)
    case SasDecision(approved) => OnSas(m, approved)
    case LocalSend(content) => OnSend(m, content)
    case LocalClose(reason) => Terminate(m, Local, Some(reason))
    case RequestRekey => BeginRekey(m)
    case Timeout(id) => OnTimeout(m, id)
    case TransportClosed => Terminate(m, TransportLost, None)
    case Malformed(respond) => Terminate(m, ProtocolViolation, if respond then Some(ProtocolError) else None)
  }

  /** One input; `out` is afterwards what it returned. A closed engine does nothing. */
  function Handle(m: Machine, input: Input): Machine {
    if m.phase.Ended? then m.(out := []) else Respond(m.(out := []), input)
  }
}
