/**
 * The frames one engine has sent and the other has not yet read, seen from the reader: which session
 * each DATA frame belongs to, where the reader switches sessions and where the writer stands.
 */
module InFlight {
  import opened Protocol
  import opened Symbolic
  import opened Ratchet
  import opened Plaintext
  import opened Data
  import opened Machine

  // ------------------------------------------------------------------ a receiver that missed nothing

  /** Everything below the frontier was delivered, in order. */
  predicate InOrder(r: Receiver) {
    r.chain.skipped == map[] && r.chain.direction == r.direction
    && r.replay.highest == if r.chain.next == 0 then None else Some(r.chain.next - 1)
  }

  /** The sender state whose next frame this receiver awaits. */
  function Expected(r: Receiver): Sender {
    Sender(r.sessionId, r.direction, r.chain.chainKey, r.chain.next)
  }

  /** The frame is what this sender state makes of the content. */
  predicate Carries(s: Sender, f: Frame, content: seq<byte>) {
    |content| <= MAX_CONTENT && s.counter < U64_MAX && f == SealedFrame(s, content)
  }

  lemma ReceivesExpected(r: Receiver, f: Frame, content: seq<byte>)
    requires InOrder(r) && Carries(Expected(r), f, content)
    ensures var (r', result) := Decrypt(r, f);
            result == Ok(content) && InOrder(r') && Expected(r') == AfterEncrypt(Expected(r))
                && r'.sessionId == r.sessionId
  {
    hide Addressed, OpenWith, Prepared, PrepareError, EncodePlaintext, Pad, Classify, Or, ShiftLeft, OneBit;
    var n := r.chain.next;
    var (key, chainKey) := DeriveMessageKey(r.chain.chainKey, r.direction);
    NextIsAdmitted(r, f, content);
    OneDerived(r.chain);
    OpensPadded(Expected(r), content);
    assert map[n := key] - {n} == map[];
  }

  lemma NextIsAdmitted(r: Receiver, f: Frame, content: seq<byte>)
    requires InOrder(r) && Carries(Expected(r), f, content)
    ensures Addressed(r, f) == Ok(f.body.envelope) && PrepareError(r.chain, r.chain.next).None?
  {
    hide EncodePlaintext, Pad;
    assert |r.chain.skipped| == 0;
  }

  lemma OneDerived(c: Chain)
    requires c.skipped == map[] && c.next < U64_MAX && PrepareError(c, c.next).None?
    ensures var (key, chainKey) := DeriveMessageKey(c.chainKey, c.direction);
            Prepared(c, c.next) == Chain(chainKey, c.next + 1, map[c.next := key], c.direction)
  {
    assert DeriveUntil(c, c.next + 1) == DeriveUntil(DeriveOne(c), c.next + 1) == DeriveOne(c);
  }

  lemma OpensPadded(s: Sender, content: seq<byte>)
    requires |content| <= MAX_CONTENT
    ensures OpenWith(DeriveMessageKey(s.chainKey, s.direction).0, SealedFrame(s, content).body.envelope) == Ok(content)
  {
    PaddedRoundTrip(content);
  }

  /** A frame of another session is turned away without a trace, and is not malformed. */
  lemma RejectsOther(r: Receiver, s: Sender, f: Frame, content: seq<byte>)
    requires Carries(s, f, content) && s.sessionId != r.sessionId
    ensures Decrypt(r, f) == (r, Err(InvalidDataPayload))
  {
  }

  // ------------------------------------------------------------------ the reader's view

  datatype View = View(active: Option<Sender>, drain: Option<Sender>, pending: Option<Sender>)

  function Awaited(s: Option<Session>): Option<Sender> {
    if s.Some? then Some(Expected(s.value.receiver)) else None
  }

  /** The sender a completed run would create on the other side. */
  function Pending(run: Option<Run>): Option<Sender> {
    if run.Some? && run.value.keys.Some? then
      var keys, direction := run.value.keys.value, SendDirection(Opposite(run.value.role));
      Some(NewSender(IdOf(keys), direction, Seed(keys, direction)))
    else None
  }

  function ViewOf(m: Machine): View {
    View(Awaited(m.active), Awaited(m.draining), Pending(m.run))
  }

  /**
   * Where the writer stands at the end of the channel: gone, at the reader's active session, or behind,
   * still on the session the reader has let drain.
   */
  datatype Tip = Gone | At(sender: Option<Sender>) | Behind(sender: Option<Sender>)

  predicate AtTip(v: View, tip: Tip) {
    match tip
    case Gone => true
    case At(s) => s == v.active
    case Behind(s) => s == v.drain
  }

  predicate IsControl(f: Frame) {
    !f.messageType.Data? && !f.messageType.Close?
  }

  /** A confirmation makes the reader switch; before any other control frame the old session has run dry. */
  function AfterControl(v: View, f: Frame): View {
    if f.messageType.SessionConfirm? then View(v.pending, v.active, None) else v.(drain := None)
  }

  predicate Talks(tip: Tip) {
    tip.Gone? || tip.sender.Some?
  }

  /** Reading this channel in order delivers exactly these contents. */
  ghost predicate Good(chan: seq<Frame>, v: View, cs: seq<seq<byte>>, tip: Tip)
    decreases |chan|
  {
    if chan == [] then cs == [] && AtTip(v, tip)
    else if chan[0].messageType.Close? then |chan| == 1 && cs == [] && tip.Gone?
    else if chan[0].messageType.Data? then
      cs != [] && Talks(tip) && (GoodDrain(chan, v, cs, tip) || GoodActive(chan, v, cs, tip))
    else Good(chan[1..], AfterControl(v, chan[0]), cs, tip)
  }

  ghost predicate GoodDrain(chan: seq<Frame>, v: View, cs: seq<seq<byte>>, tip: Tip)
    requires chan != [] && cs != []
    decreases |chan|, 0
  {
    v.drain.Some? && Carries(v.drain.value, chan[0], cs[0])
    && Good(chan[1..], v.(drain := Some(AfterEncrypt(v.drain.value))), cs[1..], tip)
  }

  ghost predicate GoodActive(chan: seq<Frame>, v: View, cs: seq<seq<byte>>, tip: Tip)
    requires chan != [] && cs != []
    decreases |chan|, 0
  {
    v.active.Some? && Carries(v.active.value, chan[0], cs[0])
    && Good(chan[1..], v.(active := Some(AfterEncrypt(v.active.value)), drain := None), cs[1..], tip)
  }

  /** The control frames of a channel. */
  function Control(chan: seq<Frame>): seq<Frame> {
    if chan == [] then []
    else (if IsControl(chan[0]) then [chan[0]] else []) + Control(chan[1..])
  }

  predicate NoConfirm(chan: seq<Frame>) {
    forall f :: f in Control(chan) ==> !f.messageType.SessionConfirm?
  }

  lemma {:induction false} ControlAppend(a: seq<Frame>, b: seq<Frame>)
    ensures Control(a + b) == Control(a) + Control(b)
  {
    if a == [] {
      assert a + b == b;
    } else {
      var head := if IsControl(a[0]) then [a[0]] else [];
      assert (a + b)[1..] == a[1..] + b;
      calc {
        Control(a + b);
        head + Control(a[1..] + b);
        { ControlAppend(a[1..], b); }
        head + (Control(a[1..]) + Control(b));
        (head + Control(a[1..])) + Control(b);
      }
    }
  }

  // ------------------------------------------------------------------ writing

  lemma Rest(chan: seq<Frame>, f: Frame)
    requires chan != []
    ensures (chan + [f])[0] == chan[0] && (chan + [f])[1..] == chan[1..] + [f]
  {
  }

  lemma {:induction false} AppendData(chan: seq<Frame>, v: View, cs: seq<seq<byte>>, tip: Tip, f: Frame, c: seq<byte>)
    requires !tip.Gone? && tip.sender.Some? && Good(chan, v, cs, tip) && Carries(tip.sender.value, f, c)
    ensures Good(chan + [f], v, cs + [c], tip.(sender := Some(AfterEncrypt(tip.sender.value))))
    decreases |chan|
  {
    var next := tip.(sender := Some(AfterEncrypt(tip.sender.value)));
    if chan == [] {
      assert chan + [f] == [f] && cs + [c] == [c] && [f][1..] == [] && [c][1..] == [];
      if tip.At? {
        assert GoodActive([f], v, [c], next);
      } else {
        assert GoodDrain([f], v, [c], next);
      }
    } else {
      Rest(chan, f);
      if chan[0].messageType.Data? {
        assert (cs + [c])[1..] == cs[1..] + [c];
        if GoodDrain(chan, v, cs, tip) {
          AppendData(chan[1..], v.(drain := Some(AfterEncrypt(v.drain.value))), cs[1..], tip, f, c);
          assert GoodDrain(chan + [f], v, cs + [c], next);
        } else {
          AppendData(chan[1..], v.(active := Some(AfterEncrypt(v.active.value)), drain := None), cs[1..], tip, f, c);
          assert GoodActive(chan + [f], v, cs + [c], next);
        }
      } else {
        AppendData(chan[1..], AfterControl(v, chan[0]), cs, tip, f, c);
      }
    }
  }

  /** Any control frame but a confirmation may follow once the writer stands at the active session. */
  lemma {:induction false} AppendControl(chan: seq<Frame>, v: View, cs: seq<seq<byte>>, s: Option<Sender>, f: Frame)
    requires Good(chan, v, cs, At(s)) && IsControl(f) && !f.messageType.SessionConfirm?
    ensures Good(chan + [f], v, cs, At(s))
    decreases |chan|
  {
    if chan == [] {
      assert chan + [f] == [f] && [f][1..] == [];
    } else {
      Rest(chan, f);
      if chan[0].messageType.Data? {
        if GoodDrain(chan, v, cs, At(s)) {
          AppendControl(chan[1..], v.(drain := Some(AfterEncrypt(v.drain.value))), cs[1..], s, f);
          assert GoodDrain(chan + [f], v, cs, At(s));
        } else {
          AppendControl(chan[1..], v.(active := Some(AfterEncrypt(v.active.value)), drain := None), cs[1..], s, f);
          assert GoodActive(chan + [f], v, cs, At(s));
        }
      } else {
        AppendControl(chan[1..], AfterControl(v, chan[0]), cs, s, f);
      }
    }
  }

  /** The initiator confirms: at the end of the channel it is behind the reader. */
  lemma {:induction false} AppendConfirm(chan: seq<Frame>, v: View, cs: seq<seq<byte>>, s: Option<Sender>, f: Frame)
    requires Good(chan, v, cs, At(s)) && f.messageType.SessionConfirm?
    ensures Good(chan + [f], v, cs, Behind(s))
    decreases |chan|
  {
    if chan == [] {
      assert chan + [f] == [f] && [f][1..] == [];
    } else {
      Rest(chan, f);
      if chan[0].messageType.Data? {
        if GoodDrain(chan, v, cs, At(s)) {
          AppendConfirm(chan[1..], v.(drain := Some(AfterEncrypt(v.drain.value))), cs[1..], s, f);
          assert GoodDrain(chan + [f], v, cs, Behind(s));
        } else {
          AppendConfirm(chan[1..], v.(active := Some(AfterEncrypt(v.active.value)), drain := None), cs[1..], s, f);
          assert GoodActive(chan + [f], v, cs, Behind(s));
        }
      } else {
        AppendConfirm(chan[1..], AfterControl(v, chan[0]), cs, s, f);
      }
    }
  }

  /** The responder confirms and switches at once: the reader will switch where it reads the confirmation. */
  lemma {:induction false} AppendSwitch(chan: seq<Frame>, v: View, cs: seq<seq<byte>>, s: Option<Sender>, f: Frame)
    requires Good(chan, v, cs, At(s)) && f.messageType.SessionConfirm? && NoConfirm(chan) && v.pending.Some?
    ensures Good(chan + [f], v, cs, At(v.pending))
    decreases |chan|
  {
    var tip := At(v.pending);
    if chan == [] {
      assert chan + [f] == [f] && [f][1..] == [];
    } else {
      Rest(chan, f);
      ConfirmLater(chan);
      if chan[0].messageType.Data? {
        if GoodDrain(chan, v, cs, At(s)) {
          AppendSwitch(chan[1..], v.(drain := Some(AfterEncrypt(v.drain.value))), cs[1..], s, f);
          assert GoodDrain(chan + [f], v, cs, tip);
        } else {
          AppendSwitch(chan[1..], v.(active := Some(AfterEncrypt(v.active.value)), drain := None), cs[1..], s, f);
          assert GoodActive(chan + [f], v, cs, tip);
        }
      } else {
        AppendSwitch(chan[1..], AfterControl(v, chan[0]), cs, s, f);
      }
    }
  }

  lemma ConfirmLater(chan: seq<Frame>)
    requires chan != [] && NoConfirm(chan)
    ensures NoConfirm(chan[1..]) && !chan[0].messageType.SessionConfirm?
  {
    forall f | f in Control(chan[1..])
      ensures !f.messageType.SessionConfirm?
    {
      assert f in Control(chan);
    }
    if IsControl(chan[0]) {
      assert Control(chan)[0] == chan[0];
    }
  }

  /** A writer that is gone: whatever it sent still reads the same, and a CLOSE may end it. */
  lemma {:induction false} Leaves(chan: seq<Frame>, v: View, cs: seq<seq<byte>>, tip: Tip, f: Frame)
    requires Good(chan, v, cs, tip) && !tip.Gone? && f.messageType.Close?
    ensures Good(chan, v, cs, Gone) && Good(chan + [f], v, cs, Gone)
    decreases |chan|
  {
    if chan == [] {
      assert chan + [f] == [f];
    } else {
      Rest(chan, f);
      if chan[0].messageType.Data? {
        if GoodDrain(chan, v, cs, tip) {
          Leaves(chan[1..], v.(drain := Some(AfterEncrypt(v.drain.value))), cs[1..], tip, f);
          assert GoodDrain(chan, v, cs, Gone) && GoodDrain(chan + [f], v, cs, Gone);
        } else {
          Leaves(chan[1..], v.(active := Some(AfterEncrypt(v.active.value)), drain := None), cs[1..], tip, f);
          assert GoodActive(chan, v, cs, Gone) && GoodActive(chan + [f], v, cs, Gone);
        }
      } else {
        Leaves(chan[1..], AfterControl(v, chan[0]), cs, tip, f);
      }
    }
  }

  // ------------------------------------------------------------------ the reader's view changes

  /** A session that is still draining does no harm. */
  lemma {:induction false} DrainHarmless(chan: seq<Frame>, v: View, cs: seq<seq<byte>>, tip: Tip)
    requires Good(chan, v.(drain := None), cs, tip) && (tip.Behind? ==> !NoConfirm(chan))
    ensures Good(chan, v, cs, tip)
    decreases |chan|
  {
    if chan != [] && chan[0].messageType.Data? {
      assert GoodActive(chan, v.(drain := None), cs, tip);
      assert GoodActive(chan, v, cs, tip);
    } else if chan != [] && IsControl(chan[0]) && !chan[0].messageType.SessionConfirm? {
      assert AfterControl(v, chan[0]) == AfterControl(v.(drain := None), chan[0]);
    }
  }

  /** Without a confirmation in the channel the pending session does not matter. */
  lemma {:induction false} PendingIrrelevant(chan: seq<Frame>, v: View, cs: seq<seq<byte>>, tip: Tip,
      pending: Option<Sender>)
    requires Good(chan, v, cs, tip) && NoConfirm(chan)
    ensures Good(chan, v.(pending := pending), cs, tip)
    decreases |chan|
  {
    if chan != [] && !chan[0].messageType.Close? {
      ConfirmLater(chan);
      if chan[0].messageType.Data? {
        if GoodDrain(chan, v, cs, tip) {
          PendingIrrelevant(chan[1..], v.(drain := Some(AfterEncrypt(v.drain.value))), cs[1..], tip, pending);
          assert GoodDrain(chan, v.(pending := pending), cs, tip);
        } else {
          PendingIrrelevant(chan[1..], v.(active := Some(AfterEncrypt(v.active.value)), drain := None), cs[1..], tip,
              pending);
          assert GoodActive(chan, v.(pending := pending), cs, tip);
        }
      } else {
        PendingIrrelevant(chan[1..], AfterControl(v, chan[0]), cs, tip, pending);
        assert AfterControl(v.(pending := pending), chan[0]) == AfterControl(v, chan[0]).(pending := pending);
      }
    }
  }

  lemma Uncontrolled(chan: seq<Frame>)
    requires chan != [] && Control(chan) == []
    ensures !IsControl(chan[0]) && Control(chan[1..]) == []
  {
  }

  /** A writer that is still there has sent no CLOSE. */
  lemma GoodData(chan: seq<Frame>, v: View, cs: seq<seq<byte>>, tip: Tip)
    requires Good(chan, v, cs, tip) && chan != [] && !IsControl(chan[0]) && !tip.Gone?
    ensures chan[0].messageType.Data? && cs != [] && tip.sender.Some?
    ensures GoodDrain(chan, v, cs, tip) || GoodActive(chan, v, cs, tip)
  {
  }

  /** With no control frame left and nothing to drain, a writer cannot be behind. */
  lemma {:induction false} NotBehind(chan: seq<Frame>, v: View, cs: seq<seq<byte>>, s: Sender)
    requires Control(chan) == [] && v.drain.None?
    ensures !Good(chan, v, cs, Behind(Some(s)))
    decreases |chan|
  {
    if Good(chan, v, cs, Behind(Some(s))) && chan != [] {
      Uncontrolled(chan);
      GoodData(chan, v, cs, Behind(Some(s)));
      NotBehind(chan[1..], v.(active := Some(AfterEncrypt(v.active.value)), drain := None), cs[1..], s);
    }
  }

  /** The initiator catches up: what it sent so far all belongs to the old session. */
  lemma {:induction false} CatchesUp(chan: seq<Frame>, v: View, cs: seq<seq<byte>>, s: Option<Sender>)
    requires Good(chan, v, cs, Behind(s)) && Control(chan) == [] && v.active.Some?
    ensures Good(chan, v, cs, At(v.active))
    decreases |chan|
  {
    if chan != [] {
      Uncontrolled(chan);
      GoodData(chan, v, cs, Behind(s));
      if GoodDrain(chan, v, cs, Behind(s)) {
        CatchesUp(chan[1..], v.(drain := Some(AfterEncrypt(v.drain.value))), cs[1..], s);
        assert GoodDrain(chan, v, cs, At(v.active));
      } else {
        NotBehind(chan[1..], v.(active := Some(AfterEncrypt(v.active.value)), drain := None), cs[1..], s.value);
      }
    }
  }
}
