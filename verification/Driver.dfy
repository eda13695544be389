/** The connection task's bookkeeping around the engine: its deadline list, and when it gives up. */
module Driver {
  import opened Protocol
  import opened Symbolic
  import opened Data
  import opened Machine
  import opened Deadlines
  import EngineInvariants
  import E = Engine

  /** A deadline id with the instant it is due. */
  datatype Due = Due(id: nat, at: nat)

  function DueIds(ds: seq<Due>): seq<nat> {
    if ds == [] then [] else [ds[0].id] + DueIds(ds[1..])
  }

  lemma {:induction false} DueIdsAppend(a: seq<Due>, b: seq<Due>)
    ensures DueIds(a + b) == DueIds(a) + DueIds(b)
  {
    if a == [] {
      assert a + b == b;
    } else {
      DueIdsAppend(a[1..], b);
      assert (a + b)[1..] == a[1..] + b;
      assert [a[0].id] + (DueIds(a[1..]) + DueIds(b)) == ([a[0].id] + DueIds(a[1..])) + DueIds(b);
    }
  }

  /** The list without this deadline. */
  function Others(ds: seq<Due>, id: nat): seq<Due> {
    if ds == [] then [] else (if ds[0].id == id then [] else [ds[0]]) + Others(ds[1..], id)
  }

  lemma {:induction false} OthersIds(ds: seq<Due>, id: nat)
    ensures DueIds(Others(ds, id)) == Dropped(DueIds(ds), id)
    ensures forall d :: d in Others(ds, id) <==> d in ds && d.id != id
    ensures id !in DueIds(ds) ==> Others(ds, id) == ds
  {
    if ds != [] {
      OthersIds(ds[1..], id);
      assert ds == [ds[0]] + ds[1..];
      var rest := Others(ds[1..], id);
      assert [] + rest == rest && ([ds[0]] + rest)[1..] == rest;
      assert ([ds[0].id] + DueIds(ds[1..]))[1..] == DueIds(ds[1..]);
      assert [] + DueIds(rest) == DueIds(rest);
    }
  }

  /** Keeps every deadline but this one. */
  method Retain(ds: seq<Due>, id: nat) returns (kept: seq<Due>)
    ensures kept == Others(ds, id)
  {
    kept := [];
    assert ds[0..] == ds && [] + Others(ds, id) == Others(ds, id);
    for i := 0 to |ds|
      invariant kept + Others(ds[i..], id) == Others(ds, id)
    {
      assert ds[i..][0] == ds[i] && ds[i..][1..] == ds[i + 1..];
      var rest := Others(ds[i + 1..], id);
      assert [] + rest == rest && (kept + [ds[i]]) + rest == kept + ([ds[i]] + rest);
      if ds[i].id != id {
        kept := kept + [ds[i]];
      }
    }
    assert ds[|ds|..] == [] && kept + [] == kept;
  }

  // ------------------------------------------------------------------ following the timers with their times

  /** The list after one effect that is carried out at `now`. */
  function FollowDue(ds: seq<Due>, e: Effect, now: nat): seq<Due> {
    match e
    case SetDeadline(id, _, after) => ds + [Due(id, now + after)]
    case CancelDeadline(id) => Others(ds, id)
    case _ => ds
  }

  function ReplayDue(ds: seq<Due>, effects: seq<Effect>, now: nat): seq<Due> {
    if effects == [] then ds
    else FollowDue(ReplayDue(ds, effects[..|effects| - 1], now), effects[|effects| - 1], now)
  }

  /** With the times left out this is how the armed ids are followed. */
  lemma {:induction false} ReplayDueIds(ds: seq<Due>, effects: seq<Effect>, now: nat)
    ensures DueIds(ReplayDue(ds, effects, now)) == Replay(DueIds(ds), effects)
    decreases |effects|
  {
    if effects != [] {
      var n := |effects| - 1;
      ReplayDueIds(ds, effects[..n], now);
      FollowDueIds(ReplayDue(ds, effects[..n], now), effects[n], now);
    }
  }

  lemma FollowDueIds(ds: seq<Due>, e: Effect, now: nat)
    ensures DueIds(FollowDue(ds, e, now)) == Follow(DueIds(ds), e)
  {
    match e {
      case SetDeadline(id, _, after) =>
        DueIdsAppend(ds, [Due(id, now + after)]);
        assert [Due(id, now + after)][1..] == [];
      case CancelDeadline(id) => OthersIds(ds, id);
      case _ =>
    }
  }

  /** Set by this effect, and not cancelled after it. */
  predicate SetAt(effects: seq<Effect>, i: nat, d: Due, now: nat)
    requires i < |effects|
  {
    effects[i].SetDeadline? && effects[i].id == d.id && d.at == now + effects[i].after
    && forall j :: i < j < |effects| ==> effects[j] != CancelDeadline(d.id)
  }

  /**
   * What is held when effects have been carried out at `now`: what they set, due the set time after now, and
   * what was held before with the time it had, apart from what they cancel.
   */
  lemma {:induction false} HeldForItsTime(ds: seq<Due>, effects: seq<Effect>, now: nat, d: Due)
    ensures d in ReplayDue(ds, effects, now)
       <==> (d in ds && CancelDeadline(d.id) !in effects) || exists i :: 0 <= i < |effects| && SetAt(effects, i, d, now)
    decreases |effects|
  {
    if effects != [] {
      var n := |effects| - 1;
      var before, e := effects[..n], effects[n];
      HeldForItsTime(ds, before, now, d);
      assert effects == before + [e];
      OneMoreEffect(effects, before, e, d, now);
      if e.CancelDeadline? {
        OthersIds(ReplayDue(ds, before, now), e.id);
      }
    }
  }

  lemma OneMoreEffect(effects: seq<Effect>, before: seq<Effect>, e: Effect, d: Due, now: nat)
    requires effects == before + [e]
    ensures (exists i :: 0 <= i < |effects| && SetAt(effects, i, d, now))
       <==> (e != CancelDeadline(d.id) && exists i :: 0 <= i < |before| && SetAt(before, i, d, now))
            || (e.SetDeadline? && e.id == d.id && d.at == now + e.after)
  {
    if e != CancelDeadline(d.id) && exists i :: 0 <= i < |before| && SetAt(before, i, d, now) {
      var i :| 0 <= i < |before| && SetAt(before, i, d, now);
      assert SetAt(effects, i, d, now);
    }
    if e.SetDeadline? && e.id == d.id && d.at == now + e.after {
      assert SetAt(effects, |before|, d, now);
    }
    if exists i :: 0 <= i < |effects| && SetAt(effects, i, d, now) {
      var i :| 0 <= i < |effects| && SetAt(effects, i, d, now);
      if i < |before| {
        assert effects[|before|] == e;
        assert forall j :: i < j < |before| ==> effects[j] == before[j];
        assert SetAt(before, i, d, now);
      }
    }
  }

  lemma {:induction false} HasDueId(ds: seq<Due>, d: Due)
    requires d in ds
    ensures d.id in DueIds(ds)
  {
    if ds[0] != d {
      HasDueId(ds[1..], d);
    }
  }

  predicate Earlier(a: Due, b: Due) {
    a.at < b.at || (a.at == b.at && a.id <= b.id)
  }

  ghost predicate Sorted(ds: seq<Due>) {
    forall i, j :: 0 <= i < j < |ds| ==> Earlier(ds[i], ds[j])
  }

  method InsertDue(sorted: seq<Due>, d: Due) returns (r: seq<Due>)
    requires Sorted(sorted)
    ensures Sorted(r) && multiset(r) == multiset(sorted + [d])
  {
    hide Sorted;
    var at := |sorted|;
    while at > 0 && !Earlier(sorted[at - 1], d)
      invariant 0 <= at <= |sorted|
      invariant forall k :: at <= k < |sorted| ==> Earlier(d, sorted[k])
    {
      at := at - 1;
    }
    r := sorted[..at] + [d] + sorted[at..];
    InsertedSorted(sorted, d, at);
    assert sorted == sorted[..at] + sorted[at..];
  }

  lemma InsertedSorted(sorted: seq<Due>, d: Due, at: nat)
    requires Sorted(sorted) && at <= |sorted|
    requires at > 0 ==> Earlier(sorted[at - 1], d)
    requires forall k :: at <= k < |sorted| ==> Earlier(d, sorted[k])
    ensures Sorted(sorted[..at] + [d] + sorted[at..])
  {
    forall k | 0 <= k < at
      ensures Earlier(sorted[k], d)
    {
      assert k < at - 1 ==> Earlier(sorted[k], sorted[at - 1]);
    }
  }

  /** What is due by now, each deadline as often as it is listed, the earliest first. */
  method Collect(ds: seq<Due>, now: nat) returns (due: seq<Due>)
    ensures Sorted(due)
    ensures forall d :: multiset(due)[d] == if d.at <= now then multiset(ds)[d] else 0
  {
    due := [];
    for i := 0 to |ds|
      invariant Sorted(due)
      invariant forall d :: multiset(due)[d] == if d.at <= now then multiset(ds[..i])[d] else 0
    {
      assert ds[..i + 1] == ds[..i] + [ds[i]];
      if ds[i].at <= now {
        due := InsertDue(due, ds[i]);
      }
    }
    assert ds[..|ds|] == ds;
  }

  // ------------------------------------------------------------------ the task

  /** What the consumer hears of. */
  predicate IsNews(e: Effect) {
    e.RequestSas? || e.Deliver? || e.Notify?
  }

  function News(effects: seq<Effect>): seq<Effect> {
    if effects == [] then []
    else News(effects[..|effects| - 1]) + if IsNews(effects[|effects| - 1]) then [effects[|effects| - 1]] else []
  }

  /** From then on the connection no longer counts as unauthenticated. */
  predicate EndsHandshake(e: Effect) {
    e.Notify? && (e.event.Established? || e.event.Closed?)
  }

  /** Everything a task keeps besides its engine. */
  datatype Books = Books(deadlines: seq<Due>, lost: bool, orphaned: bool, closing: bool, permit: bool,
    written: seq<Frame>, told: seq<Effect>)

  /**
   * What performing these effects at `now` leaves: deadlines due the set time from now, every frame written and
   * all news told while nothing fails, and from the first failure on nothing more.
   */
  ghost predicate Performed(b: Books, effects: seq<Effect>, now: nat, r: Books) {
    r.deadlines == ReplayDue(b.deadlines, effects, now)
    && (r.closing <==> b.closing || CloseTransport in effects)
    && (r.permit <==> b.permit && forall e :: e in effects ==> !EndsHandshake(e))
    && (b.lost ==> r.lost) && (b.orphaned ==> r.orphaned)
    && b.written <= r.written <= b.written + Sends(effects)
    && b.told <= r.told <= b.told + News(effects)
    && (!r.lost ==> r.written == b.written + Sends(effects))
    && (!r.orphaned ==> r.told == b.told + News(effects))
  }

  ghost predicate PerformedOne(b: Books, e: Effect, now: nat, r: Books) {
    r.deadlines == FollowDue(b.deadlines, e, now)
    && (r.closing <==> b.closing || e.CloseTransport?)
    && (r.permit <==> b.permit && !EndsHandshake(e))
    && (b.lost ==> r.lost) && (b.orphaned ==> r.orphaned)
    && r.written == b.written + (if e.Send? && !r.lost then [e.frame] else [])
    && r.told == b.told + (if IsNews(e) && !r.orphaned then [e] else [])
  }

  lemma NothingPerformed(b: Books, now: nat)
    ensures Performed(b, [], now, b)
  {
  }

  lemma PerformedMore(b: Books, effects: seq<Effect>, i: nat, now: nat, before: Books, r: Books)
    requires i < |effects| && Performed(b, effects[..i], now, before) && PerformedOne(before, effects[i], now, r)
    ensures Performed(b, effects[..i + 1], now, r)
  {
    hide FollowDue, EndsHandshake, IsNews;
    assert effects[..i + 1][..i] == effects[..i];
    assert effects[..i + 1] == effects[..i] + [effects[i]];
  }

  /** The inputs a task gives its engine of its own accord once a failure is noticed. */
  predicate GivingUp(inputs: seq<Input>) {
    inputs == [] || inputs == [TransportClosed] || inputs == [LocalClose(Shutdown)]
  }

  class Task {
    const engine: E.Engine
    var deadlines: seq<Due>
    var lost: bool
    var orphaned: bool
    var closing: bool
    var permit: bool
    /** The frames the stream took and the news the consumer took. */
    var written: seq<Frame>
    var told: seq<Effect>

    function State(): Books
      reads this
    {
      Books(deadlines, lost, orphaned, closing, permit, written, told)
    }

    /** The engine is valid and the task is closing exactly when the engine ended. */
    ghost predicate Sound()
      reads this, engine, engine.Sessions()
    {
      engine.Apart() && EngineInvariants.Valid(engine.State()) && (closing <==> engine.phase.Ended?)
    }

    /** The task's deadline list mirrors the engine's. */
    ghost predicate Mirrors()
      reads this, engine, engine.Sessions()
    {
      Sound() && DueIds(deadlines) == Ids(engine.deadlines)
    }

    /** The engine gave out no id below this one since, and the list regained none. */
    predicate Since(held: seq<nat>, next: nat)
      reads this, engine
    {
      next <= engine.nextDeadline && NoneReturns(held, next, DueIds(deadlines))
    }

    /** Whoever can no longer write or be heard is closing. */
    ghost predicate Settled()
      reads this, engine, engine.Sessions()
    {
      Mirrors() && (lost || orphaned ==> closing)
    }

    constructor (role: Role, identity: Identity, source: nat, permit: bool)
      ensures Settled() && State() == Books([], false, false, false, permit, [], [])
      ensures fresh(engine) && fresh(engine.Sessions())
      ensures engine.State() == NewMachine(role, identity, source, REKEY_MESSAGE_LIMIT)
    {
      var e := new E.Engine(role, identity, source);
      EngineInvariants.FreshValid(role, identity, source, REKEY_MESSAGE_LIMIT);
      engine := e;
      deadlines, lost, orphaned, closing, written, told := [], false, false, false, [], [];
      this.permit := permit;
    }

    /** Performs effects in order. */
    method Process(effects: seq<Effect>, now: nat)
      modifies this
      ensures Performed(old(State()), effects, now, State())
      ensures effects == [] ==> State() == old(State())
    {
      hide Performed, PerformedOne;
      NothingPerformed(State(), now);
      assert effects[..0] == [];
      for i := 0 to |effects|
        invariant i == 0 ==> State() == old(State())
        invariant Performed(old(State()), effects[..i], now, State())
      {
        ghost var before := State();
        Perform(effects[i], now);
        PerformedMore(old(State()), effects, i, now, before, State());
      }
      assert effects[..|effects|] == effects;
    }

    /** A write may fail, and the consumer may be gone, at any effect. */
    method Perform(e: Effect, now: nat)
      modifies this
      ensures PerformedOne(old(State()), e, now, State())
    {
      match e
      case Send(frame) =>
        if !lost {
          lost := *;
          if !lost {
            written := written + [frame];
          }
        }
      case SetDeadline(id, _, after) => deadlines := deadlines + [Due(id, now + after)];
      case CancelDeadline(id) =>
        var kept := Retain(deadlines, id);
        deadlines := kept;
      case CloseTransport => closing := true;
      case _ =>
        permit := permit && !EndsHandshake(e);
        Emit(e);
    }

    method Emit(e: Effect)
      modifies this`orphaned, this`told
      ensures old(orphaned) ==> orphaned
      ensures told == old(told) + if orphaned then [] else [e]
    {
      if !orphaned {
        orphaned := *;
      }
      if !orphaned {
        told := told + [e];
      }
    }

    /** One input handed to the engine and its effects performed. */
    method Feed(input: Input, now: nat)
      requires Sound() && DueIds(deadlines) == Held(engine.State(), input)
      modifies this, engine, engine.Sessions()
      ensures Mirrors() && engine.State() == Handle(old(engine.State()), input)
      ensures deadlines == ReplayDue(old(deadlines), engine.out, now)
      ensures old(closing) ==> closing
      ensures (old(lost) ==> lost) && (old(orphaned) ==> orphaned)
      ensures old(written) <= written && (!lost ==> written == old(written) + Sends(engine.out))
      ensures old(told) <= told && (!orphaned ==> told == old(told) + News(engine.out))
      ensures engine.out == [] ==> State() == old(State())
      ensures Keeps(old(deadlines), old(engine.nextDeadline), deadlines)
      ensures Since(old(DueIds(deadlines)), old(engine.nextDeadline))
      ensures fresh(engine.Sessions() - old(engine.Sessions()))
    {
      hide Handle, DueIds, Ids, Replay, ReplayDue, Talk, News, Sends, Dropped, Keeps, EndsHandshake,
        EngineInvariants.Valid, E.StateOf;
      ghost var m, held := engine.State(), deadlines;
      var effects := engine.HandleInput(input);
      AfterInput(m, input, effects);
      ReplayDueIds(deadlines, effects, now);
      KeepsReplayed(held, m.nextDeadline, effects, now);
      Process(effects, now);
    }

    /**
     * After every input the list mirrors the engine's armed ids, whatever fails on the way: a failed write
     * becomes a lost transport and a vanished consumer a local close, both once the effects are done. While
     * the connection goes on, all effects of the input were performed, and each deadline has its time.
     */
    method Apply(input: Input, now: nat) returns (ghost given: seq<Input>)
      requires Sound() && DueIds(deadlines) == Held(engine.State(), input)
      modifies this, engine, engine.Sessions()
      ensures Settled() && fresh(engine.Sessions() - old(engine.Sessions()))
      ensures Since(old(DueIds(deadlines)), old(engine.nextDeadline))
      ensures Keeps(old(deadlines), old(engine.nextDeadline), deadlines)
      ensures GivingUp(given) && engine.State() == EngineInvariants.HandleAll(Handle(old(engine.State()), input), given)
      ensures old(written) <= written && old(told) <= told && (old(closing) ==> closing)
      ensures !closing ==>
                given == []
                && deadlines == ReplayDue(old(deadlines), engine.out, now)
                && written == old(written) + Sends(engine.out) && told == old(told) + News(engine.out)
      ensures closing ==> deadlines == []
      ensures Handle(old(engine.State()), input).out == [] && old(lost || orphaned ==> closing) ==>
                engine.State() == Handle(old(engine.State()), input) && State() == old(State())
    {
      hide Handle, DueIds, Ids, Dropped, ReplayDue, News, Sends, Keeps, NoneReturns, Held, EngineInvariants.HandleAll,
        EngineInvariants.Valid, E.StateOf;
      ghost var held, next := deadlines, engine.nextDeadline;
      Feed(input, now);
      ghost var between, later := deadlines, engine.nextDeadline;
      given := GiveUp(now);
      KeepsTwice(held, next, between, later, deadlines);
      NoneTwice(DueIds(held), next, DueIds(between), later, DueIds(deadlines));
      NothingHeld(engine.State(), deadlines);
    }

    /** A failed write is a lost transport, and a vanished consumer a local close. */
    method GiveUp(now: nat) returns (ghost given: seq<Input>)
      requires Mirrors()
      modifies this, engine, engine.Sessions()
      ensures Settled() && fresh(engine.Sessions() - old(engine.Sessions()))
      ensures Since(old(DueIds(deadlines)), old(engine.nextDeadline))
      ensures Keeps(old(deadlines), old(engine.nextDeadline), deadlines)
      ensures given == if old(closing) then [] else if old(lost) then [TransportClosed]
                       else if old(orphaned) then [LocalClose(Shutdown)] else []
      ensures engine.State() == EngineInvariants.HandleAll(old(engine.State()), given)
      ensures old(written) <= written && old(told) <= told && (given != [] ==> closing)
      ensures given == [] ==> engine.State() == old(engine.State()) && State() == old(State())
    {
      hide Handle, DueIds, Ids, Dropped, ReplayDue, News, Sends, EngineInvariants.Valid, E.StateOf;
      given := [];
      if lost && !engine.phase.Ended? {
        GivingUpEnds(engine.State());
        Feed(TransportClosed, now);
        given := [TransportClosed];
      }
      if orphaned && !engine.phase.Ended? {
        GivingUpEnds(engine.State());
        Feed(LocalClose(Shutdown), now);
        given := [LocalClose(Shutdown)];
      }
    }

    /**
     * Fires what is due, each deadline as often as it is listed, the earliest first, and gives the engine no
     * other timeout. What was due is no longer held, nor by the engine; what is not due yet keeps its time as
     * long as the engine wants it; and while the connection goes on each new deadline has its time.
     */
    method FireDue(now: nat) returns (ghost due: seq<Due>, ghost given: seq<Input>)
      requires Settled()
      modifies this, engine, engine.Sessions()
      ensures Settled() && fresh(engine.Sessions() - old(engine.Sessions()))
      ensures Sorted(due) && forall d :: multiset(due)[d] == if d.at <= now then multiset(old(deadlines))[d] else 0
      ensures Timeouts(given) == DueIds(due)
      ensures engine.State() == EngineInvariants.HandleAll(old(engine.State()), given)
      ensures forall d :: d in old(deadlines) && d.at <= now ==> d.id !in DueIds(deadlines)
      ensures forall d :: d in old(deadlines) && d.at > now ==> (d in deadlines <==> d.id in Ids(engine.deadlines))
      ensures !closing ==>
                Timer(deadlines, engine.State()) == FireEach(Timer(old(deadlines), old(engine.State())), due, now)
    {
      hide Settled, DueIds, Since, FireEach, NoneOf, AllBelow, Keeps, Timeouts, Handle, Ids, EngineInvariants.HandleAll;
      ghost var before, next := deadlines, engine.nextDeadline;
      var collected := Collect(deadlines, now);
      due := collected;
      AllDue(deadlines, due, now);
      DueBelow(due);
      DueBelow(before);
      SettledDistinct();
      given := FireAll(collected, now);
      StillHeld(before, next);
      forall d | d in before && d.at <= now
        ensures d.id !in DueIds(deadlines)
      {
        assert d in due;
        OutOf(due, d, DueIds(deadlines));
      }
    }

    /** Fires these in order. */
    method FireAll(due: seq<Due>, now: nat) returns (ghost given: seq<Input>)
      requires Settled() && AllBelow(due, engine.nextDeadline)
      modifies this, engine, engine.Sessions()
      ensures Settled() && fresh(engine.Sessions() - old(engine.Sessions()))
      ensures Batch(Timer(old(deadlines), old(engine.State())), due, now, given,
                    Timer(deadlines, engine.State()), closing)
    {
      hide Settled, Batch, FiredOnce, AllBelow, DueIds, Handle, EngineInvariants.Valid, E.StateOf;
      ghost var start := Timer(deadlines, engine.State());
      ghost var at, closed := start, closing;
      NothingFired(start, now, closing);
      assert due[..0] == [];
      given := [];
      for i := 0 to |due|
        invariant Settled() && fresh(engine.Sessions() - old(engine.Sessions()))
        invariant at == Timer(deadlines, engine.State()) && closed == closing
        invariant AllBelow(due, at.engine.nextDeadline) && Batch(start, due[..i], now, given, at, closed)
      {
        ghost var gave := Fire(due[i].id, now);
        FiredMore(start, due, i, now, given, at, closed, gave, Timer(deadlines, engine.State()), closing);
        at, closed := Timer(deadlines, engine.State()), closing;
        given := given + ([Timeout(due[i].id)] + gave);
      }
      assert due[..|due|] == due;
    }

    /** A deadline that an earlier one of the batch cancelled fires as a stale timeout, which changes nothing. */
    method Fire(id: nat, now: nat) returns (ghost gave: seq<Input>)
      requires Settled()
      modifies this, engine, engine.Sessions()
      ensures Settled() && fresh(engine.Sessions() - old(engine.Sessions()))
      ensures FiredOnce(Timer(old(deadlines), old(engine.State())), old(closing), id, now, gave,
                    Timer(deadlines, engine.State()), closing)
      ensures id !in old(DueIds(deadlines)) ==>
                engine.State() == old(engine.State()).(out := []) && State() == old(State())
    {
      hide Handle, Dropped, Ids, DueIds, Others, ReplayDue, Keeps, EngineInvariants.Valid, EngineInvariants.HandleAll,
        NoneReturns, Held, FiredOnce, E.StateOf;
      ghost var m, held, closed := engine.State(), deadlines, closing;
      if id !in DueIds(deadlines) {
        UnheldIsStale(m, id);
      }
      Forget(id);
      gave := Apply(Timeout(id), now);
      FiredWhole(Timer(held, m), closed, id, now, gave, Timer(deadlines, engine.State()), closing);
    }

    method Forget(id: nat)
      requires Settled()
      modifies this`deadlines
      ensures deadlines == Others(old(deadlines), id)
      ensures Sound() && DueIds(deadlines) == Held(engine.State(), Timeout(id)) == Dropped(old(DueIds(deadlines)), id)
      ensures id !in old(DueIds(deadlines)) ==> deadlines == old(deadlines)
    {
      hide Dropped, Ids, DueIds, Others, EngineInvariants.Valid;
      var kept := Retain(deadlines, id);
      OthersIds(deadlines, id);
      deadlines := kept;
    }

    lemma DueBelow(due: seq<Due>)
      requires Settled() && forall d :: d in due ==> d in deadlines
      ensures AllBelow(due, engine.nextDeadline)
    {
      hide Settled, DueIds;
      forall d | d in due
        ensures d.id < engine.nextDeadline
      {
        HasDueId(deadlines, d);
        SettledBounds(d.id);
      }
    }

    /** Whoever was held under an id that is still held is held with the time it had. */
    lemma StillHeld(before: seq<Due>, next: nat)
      requires Settled() && Keeps(before, next, deadlines) && AllBelow(before, next) && Distinct(before)
      ensures forall d :: d in before ==> (d in deadlines <==> d.id in Ids(engine.deadlines))
    {
      hide EngineInvariants.Valid, DueIds, Ids;
      forall d | d in before
        ensures d in deadlines <==> d.id in Ids(engine.deadlines)
      {
        if d in deadlines {
          HasDueId(deadlines, d);
        }
        if d.id in DueIds(deadlines) {
          var e := OfId(deadlines, d.id);
        }
      }
    }

    lemma SettledDistinct()
      requires Settled()
      ensures Distinct(deadlines)
    {
      hide EngineInvariants.Valid;
      ValidTidy(engine.State());
      MirrorDistinct(deadlines, engine.deadlines, engine.nextDeadline);
    }

    lemma SettledBounds(id: nat)
      requires Settled() && id in DueIds(deadlines)
      ensures id < engine.nextDeadline
    {
      hide EngineInvariants.Valid;
      ValidTidy(engine.State());
      TidyBounds(engine.deadlines, id, engine.nextDeadline);
    }
  }

  lemma {:induction false} TidyBounds(ds: seq<Deadline>, id: nat, bound: nat)
    requires Tidy(ds, bound) && id in Ids(ds)
    ensures id < bound
  {
    if ds[0].id != id {
      TidyBounds(ds[1..], id, bound);
    }
  }

  lemma {:induction false} DroppedOut(ids: seq<nat>, id: nat)
    ensures forall k :: k in Dropped(ids, id) <==> k in ids && k != id
  {
    if ids != [] {
      DroppedOut(ids[1..], id);
      assert ids == [ids[0]] + ids[1..];
    }
  }

  predicate AllBelow(due: seq<Due>, bound: nat) {
    forall d :: d in due ==> d.id < bound
  }

  predicate NoneOf(due: seq<Due>, ids: seq<nat>) {
    forall d :: d in due ==> d.id !in ids
  }

  lemma OutOf(due: seq<Due>, d: Due, ids: seq<nat>)
    requires NoneOf(due, ids) && d in due
    ensures d.id !in ids
  {
  }

  /** What is held afterwards under an id given out before was held before, for the same time. */
  predicate Keeps(before: seq<Due>, next: nat, after: seq<Due>) {
    forall d :: d in after && d.id < next ==> d in before
  }

  lemma KeepsAll(ds: seq<Due>, next: nat)
    ensures Keeps(ds, next, ds)
  {
  }

  lemma KeepsTwice(a: seq<Due>, next: nat, b: seq<Due>, later: nat, c: seq<Due>)
    requires Keeps(a, next, b) && Keeps(b, later, c) && next <= later
    ensures Keeps(a, next, c)
  {
  }

  lemma NoneTwice(a: seq<nat>, next: nat, b: seq<nat>, later: nat, c: seq<nat>)
    requires NoneReturns(a, next, b) && NoneReturns(b, later, c) && next <= later
    ensures NoneReturns(a, next, c)
  {
  }

  lemma KeepsFired(before: seq<Due>, next: nat, id: nat, after: seq<Due>)
    requires Keeps(Others(before, id), next, after)
    ensures Keeps(before, next, after)
  {
    OthersIds(before, id);
  }

  /** Carrying out effects that set new ids only. */
  lemma KeepsReplayed(before: seq<Due>, next: nat, effects: seq<Effect>, now: nat)
    requires forall e :: e in effects && e.SetDeadline? ==> next <= e.id
    ensures Keeps(before, next, ReplayDue(before, effects, now))
  {
    hide ReplayDue;
    forall d | d in ReplayDue(before, effects, now) && d.id < next
      ensures d in before
    {
      HeldForItsTime(before, effects, now, d);
      assert forall i :: 0 <= i < |effects| ==> effects[i] in effects;
    }
  }

  ghost predicate Distinct(ds: seq<Due>) {
    forall d, e :: d in ds && e in ds && d.id == e.id ==> d == e
  }

  /** Armed ids are distinct, so a list that mirrors them holds no id twice. */
  lemma {:induction false} MirrorDistinct(ds: seq<Due>, armed: seq<Deadline>, bound: nat)
    requires DueIds(ds) == Ids(armed) && Tidy(armed, bound)
    ensures Distinct(ds)
  {
    if ds != [] {
      var tail := armed[1..];
      assert Ids(armed)[1..] == Ids(tail) && DueIds(ds)[1..] == DueIds(ds[1..]);
      MirrorDistinct(ds[1..], tail, bound);
      assert ds == [ds[0]] + ds[1..];
      forall d | d in ds[1..]
        ensures d.id != ds[0].id
      {
        HasDueId(ds[1..], d);
        ArmedKind(tail, d.id);
      }
    }
  }

  lemma {:induction false} ArmedKind(armed: seq<Deadline>, id: nat)
    requires id in Ids(armed)
    ensures KindOf(armed, id).Some?
  {
    if armed[0].id != id {
      ArmedKind(armed[1..], id);
    }
  }

  lemma {:induction false} OfId(ds: seq<Due>, id: nat) returns (d: Due)
    requires id in DueIds(ds)
    ensures d in ds && d.id == id
  {
    if ds[0].id == id {
      d := ds[0];
    } else {
      d := OfId(ds[1..], id);
    }
  }

  // ------------------------------------------------------------------ a batch that fires

  /** A deadline list and the engine it belongs to. */
  datatype Timer = Timer(held: seq<Due>, engine: Machine)

  /** Each in turn is taken off the list, and what the engine does about it is carried out. */
  function FireEach(t: Timer, due: seq<Due>, now: nat): Timer
    decreases |due|
  {
    if due == [] then t else FireOne(FireEach(t, due[..|due| - 1], now), due[|due| - 1].id, now)
  }

  function FireOne(t: Timer, id: nat, now: nat): Timer {
    var r := Handle(t.engine, Timeout(id));
    Timer(ReplayDue(Others(t.held, id), r.out, now), r)
  }

  function Timeouts(inputs: seq<Input>): seq<nat> {
    if inputs == [] then [] else (if inputs[0].Timeout? then [inputs[0].id] else []) + Timeouts(inputs[1..])
  }

  lemma {:induction false} TimeoutsAppend(a: seq<Input>, b: seq<Input>)
    ensures Timeouts(a + b) == Timeouts(a) + Timeouts(b)
  {
    if a == [] {
      assert a + b == b && [] + Timeouts(b) == Timeouts(b);
    } else {
      TimeoutsAppend(a[1..], b);
      assert (a + b)[1..] == a[1..] + b;
    }
  }

  lemma {:induction false} HandleAllAppend(m: Machine, a: seq<Input>, b: seq<Input>)
    ensures EngineInvariants.HandleAll(m, a + b) == EngineInvariants.HandleAll(EngineInvariants.HandleAll(m, a), b)
    decreases |a|
  {
    hide Handle;
    if a == [] {
      assert a + b == b;
    } else {
      HandleAllAppend(Handle(m, a[0]), a[1..], b);
      assert (a + b)[1..] == a[1..] + b;
    }
  }

  /** What firing one deadline leaves, whether the connection goes on or not. */
  ghost predicate FiredOnce(t: Timer, closed: bool, id: nat, now: nat, gave: seq<Input>, r: Timer, closing: bool) {
    t.engine.nextDeadline <= r.engine.nextDeadline && (closed ==> closing)
    && NoneReturns(Dropped(DueIds(t.held), id), t.engine.nextDeadline, DueIds(r.held))
    && Keeps(t.held, t.engine.nextDeadline, r.held)
    && GivingUp(gave) && r.engine == EngineInvariants.HandleAll(Handle(t.engine, Timeout(id)), gave)
    && (!closing ==> r == FireOne(t, id, now))
  }

  lemma FiredWhole(t: Timer, closed: bool, id: nat, now: nat, gave: seq<Input>, r: Timer, closing: bool)
    requires t.engine.nextDeadline <= r.engine.nextDeadline && (closed ==> closing) && GivingUp(gave)
    requires NoneReturns(Dropped(DueIds(t.held), id), t.engine.nextDeadline, DueIds(r.held))
    requires Keeps(Others(t.held, id), t.engine.nextDeadline, r.held)
    requires r.engine == EngineInvariants.HandleAll(Handle(t.engine, Timeout(id)), gave)
    requires !closing ==> gave == [] && r.held == ReplayDue(Others(t.held, id), r.engine.out, now)
    ensures FiredOnce(t, closed, id, now, gave, r, closing)
  {
    hide Handle, NoneReturns, Dropped, DueIds, Keeps, ReplayDue, Others;
    KeepsFired(t.held, t.engine.nextDeadline, id, r.held);
  }

  /** What firing all of these leaves. */
  ghost predicate Batch(t: Timer, due: seq<Due>, now: nat, given: seq<Input>, r: Timer, closing: bool) {
    t.engine.nextDeadline <= r.engine.nextDeadline
    && NoneOf(due, DueIds(r.held)) && Keeps(t.held, t.engine.nextDeadline, r.held)
    && Timeouts(given) == DueIds(due) && r.engine == EngineInvariants.HandleAll(t.engine, given)
    && (!closing ==> r == FireEach(t, due, now))
  }

  lemma NothingFired(t: Timer, now: nat, closing: bool)
    ensures Batch(t, [], now, [], t, closing)
  {
    hide Handle;
  }

  lemma FiredMore(t: Timer, due: seq<Due>, i: nat, now: nat, given: seq<Input>, before: Timer, closed: bool,
      gave: seq<Input>, r: Timer, closing: bool)
    requires i < |due| && AllBelow(due, before.engine.nextDeadline) && Batch(t, due[..i], now, given, before, closed)
    requires FiredOnce(before, closed, due[i].id, now, gave, r, closing)
    ensures AllBelow(due, r.engine.nextDeadline)
    ensures Batch(t, due[..i + 1], now, given + ([Timeout(due[i].id)] + gave), r, closing)
  {
    hide Handle, FireOne, Dropped, DueIds, Keeps, NoneOf, AllBelow, NoneReturns, Timeouts, EngineInvariants.HandleAll;
    StaysOut(due, i, DueIds(before.held), before.engine.nextDeadline, DueIds(r.held), r.engine.nextDeadline);
    KeepsTwice(t.held, t.engine.nextDeadline, before.held, before.engine.nextDeadline, r.held);
    GivenMore(t.engine, given, due, i, gave);
    assert due[..i + 1][..i] == due[..i] && due[..i + 1][i] == due[i];
  }

  /** One more fired. */
  lemma GivenMore(m: Machine, given: seq<Input>, due: seq<Due>, i: nat, gave: seq<Input>)
    requires i < |due| && GivingUp(gave) && Timeouts(given) == DueIds(due[..i])
    ensures var more := given + ([Timeout(due[i].id)] + gave);
            Timeouts(more) == DueIds(due[..i + 1])
            && EngineInvariants.HandleAll(m, more)
               == EngineInvariants.HandleAll(Handle(EngineInvariants.HandleAll(m, given), Timeout(due[i].id)), gave)
  {
    hide Handle;
    var next := [Timeout(due[i].id)] + gave;
    TimeoutsAppend(given, next);
    HandleAllAppend(m, given, next);
    assert next[1..] == gave;
    assert due[..i + 1] == due[..i] + [due[i]];
    DueIdsAppend(due[..i], [due[i]]);
    assert [due[i]][1..] == [];
    assert Timeouts(gave) == [] by {
      assert gave != [] ==> gave[1..] == [] && gave == [gave[0]];
    }
    assert [next[0].id] + [] == [due[i].id];
    assert EngineInvariants.HandleAll(EngineInvariants.HandleAll(m, given), next)
        == EngineInvariants.HandleAll(Handle(EngineInvariants.HandleAll(m, given), next[0]), next[1..]);
  }

  lemma NoneOfNothing(ids: seq<nat>)
    ensures NoneOf([], ids)
  {
  }

  /** One more of them fired: it is out, and those out stay out. */
  lemma StaysOut(due: seq<Due>, i: nat, before: seq<nat>, next: nat, after: seq<nat>, later: nat)
    requires i < |due| && AllBelow(due, next) && next <= later && NoneOf(due[..i], before)
    requires NoneReturns(Dropped(before, due[i].id), next, after)
    ensures NoneOf(due[..i + 1], after) && AllBelow(due, later)
  {
    DroppedOut(before, due[i].id);
    assert due[..i + 1] == due[..i] + [due[i]];
  }

  lemma AllDue(ds: seq<Due>, due: seq<Due>, now: nat)
    requires forall d :: multiset(due)[d] == if d.at <= now then multiset(ds)[d] else 0
    ensures forall d :: d in due <==> d in ds && d.at <= now
  {
    forall d
      ensures d in due <==> d in ds && d.at <= now
    {
      assert d in due <==> multiset(due)[d] > 0;
      assert d in ds <==> multiset(ds)[d] > 0;
    }
  }

  lemma UnheldIsStale(m: Machine, id: nat)
    requires id !in Ids(m.deadlines)
    ensures Handle(m, Timeout(id)) == m.(out := [])
  {
    hide Handle;
    NotArmed(m.deadlines, id);
    StaleTimeout(m, id);
  }

  lemma {:induction false} NotArmed(ds: seq<Deadline>, id: nat)
    requires id !in Ids(ds)
    ensures KindOf(ds, id).None?
  {
    if ds != [] {
      assert ds[0].id in Ids(ds);
      assert forall k :: k in Ids(ds[1..]) ==> k in Ids(ds);
      NotArmed(ds[1..], id);
    }
  }

  /** What one input leaves to a driver that holds the armed ids. */
  lemma AfterInput(m: Machine, input: Input, effects: seq<Effect>)
    requires EngineInvariants.Valid(m) && effects == Handle(m, input).out
    ensures var r := Handle(m, input);
            EngineInvariants.Valid(r) && Replay(Held(m, input), effects) == Ids(r.deadlines)
            && m.nextDeadline <= r.nextDeadline && NoneReturns(Held(m, input), m.nextDeadline, Ids(r.deadlines))
            && (r.phase.Ended? <==> m.phase.Ended? || CloseTransport in effects)
            && forall e :: e in effects && e.SetDeadline? ==> m.nextDeadline <= e.id
  {
    hide Handle, Replay, Talk, EngineInvariants.Valid, Held, Ids;
    EngineInvariants.HandleKeeps(m, input);
    if m.phase.Ended? {
      EndedHoldsNothing(m, input);
    } else {
      EffectsMirrorDeadlines(m, input);
      CloseInTalk(effects);
    }
  }

  /** CloseTransport is no timer, so it is in what the effects say. */
  lemma {:induction false} CloseInTalk(out: seq<Effect>)
    ensures CloseTransport in out <==> CloseTransport in Talk(out)
    decreases |out|
  {
    if out != [] {
      var n := |out| - 1;
      CloseInTalk(out[..n]);
      assert out == out[..n] + [out[n]];
    }
  }

  lemma NothingHeld(m: Machine, ds: seq<Due>)
    requires EngineInvariants.Valid(m) && DueIds(ds) == Ids(m.deadlines)
    ensures m.phase.Ended? ==> ds == []
  {
    if m.phase.Ended? {
      EngineInvariants.IdleUnarmed(m);
    }
  }

  lemma GivingUpEnds(m: Machine)
    ensures Handle(m, TransportClosed).phase.Ended? && Handle(m, LocalClose(Shutdown)).phase.Ended?
  {
    hide CancelAll, Told, Push;
  }

  /** An ended engine has nothing armed and stays as it is. */
  lemma EndedHoldsNothing(m: Machine, input: Input)
    requires EngineInvariants.Valid(m) && m.phase.Ended?
    ensures Held(m, input) == [] && Handle(m, input) == m.(out := []) && Replay([], []) == [] && Ids(m.deadlines) == []
    ensures EngineInvariants.Valid(m.(out := []))
  {
    EngineInvariants.IdleUnarmed(m);
  }
}
