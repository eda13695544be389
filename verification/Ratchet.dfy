/** The sliding replay bitmap and the receiving chain with its bounded cache of derived keys. */
module Ratchet {
  import opened Protocol
  import opened Symbolic

  // ------------------------------------------------------------------ replay window

  datatype ReplayStatus = New | Duplicate | TooOld

  /** The 64-bit word is kept as its bits, bit 0 first; a left shift drops what leaves bit 63. */
  type Word = b: seq<bool> | |b| == 64 witness seq(64, _ => false)

  function OneBit(at: nat): Word {
    seq(64, i => i == at)
  }

  function ShiftLeft(b: Word, places: nat): Word {
    seq(64, i requires 0 <= i < 64 => i >= places && b[i - places])
  }

  function Or(a: Word, b: Word): Word {
    seq(64, i requires 0 <= i < 64 => a[i] || b[i])
  }

  datatype Window = Window(highest: Option<u64>, bits: Word)

  function EmptyWindow(): Window {
    Window(None, seq(64, _ => false))
  }

  function Classify(w: Window, counter: u64): ReplayStatus {
    match w.highest
    case None => New
    case Some(highest) =>
      if counter > highest then New
      else
        var distance := highest - counter;
        if distance >= REPLAY_WINDOW_SIZE then TooOld
        else if w.bits[distance] then Duplicate
        else New
  }

  /** The window after a counter that classifies as New is recorded. */
  function Record(w: Window, counter: u64): Window {
    match w.highest
    case None => Window(Some(counter), OneBit(0))
    case Some(highest) =>
      if counter > highest then
        var shift := counter - highest;
        Window(Some(counter), if shift >= 64 then OneBit(0) else Or(ShiftLeft(w.bits, shift), OneBit(0)))
      else if highest - counter < 64 then Window(Some(highest), Or(w.bits, OneBit(highest - counter)))
      else w
  }

  /** The window stands for the set of counters accepted so far, exact within its 64 counters. */
  ghost predicate Refines(w: Window, accepted: set<u64>) {
    match w.highest
    case None => accepted == {}
    case Some(highest) =>
      highest in accepted
      && (forall c: u64 :: c in accepted ==> c <= highest)
      && forall d :: 0 <= d < 64 && d <= highest ==> (w.bits[d] <==> highest - d in accepted)
  }

  /** What the set and its greatest element dictate. */
  ghost function Status(accepted: set<u64>, counter: u64): ReplayStatus {
    if forall c: u64 :: c in accepted ==> c < counter then New
    else if exists c: u64 :: c in accepted && c >= counter + REPLAY_WINDOW_SIZE then TooOld
    else if counter in accepted then Duplicate
    else New
  }

  lemma ClassifyRefines(w: Window, accepted: set<u64>, counter: u64)
    requires Refines(w, accepted)
    ensures Classify(w, counter) == Status(accepted, counter)
  {
    if w.highest.Some? && counter <= w.highest.value {
      var distance := w.highest.value - counter;
      assert w.highest.value - distance == counter;
    }
  }

  lemma RecordRefines(w: Window, accepted: set<u64>, counter: u64)
    requires Refines(w, accepted) && Classify(w, counter) == New
    ensures Refines(Record(w, counter), accepted + {counter})
  {
    if w.highest.Some? {
      var highest, r := w.highest.value, Record(w, counter);
      if counter > highest {
        var shift := counter - highest;
        forall d | 0 <= d < 64 && d <= counter
          ensures r.bits[d] <==> counter - d in accepted + {counter}
        {
          if d >= shift {
            assert counter - d == highest - (d - shift);
          }
        }
      } else {
        forall d | 0 <= d < 64 && d <= highest
          ensures r.bits[d] <==> highest - d in accepted + {counter}
        {
        }
      }
    }
  }

  /** The sequence of accept calls that a run makes, with the set of those that were accepted. */
  function AcceptAll(w: Window, accepted: set<u64>, counters: seq<u64>): (Window, set<u64>)
    decreases |counters|
  {
    if counters == [] then (w, accepted)
    else if Classify(w, counters[0]) == New
      then AcceptAll(Record(w, counters[0]), accepted + {counters[0]}, counters[1..])
      else AcceptAll(w, accepted, counters[1..])
  }

  /** After any sequence of accept calls the bitmap classifies as the accepted set dictates. */
  lemma {:induction false} BitmapRefinesSet(w: Window, accepted: set<u64>, counters: seq<u64>, counter: u64)
    requires Refines(w, accepted)
    ensures var (w', accepted') := AcceptAll(w, accepted, counters);
            Refines(w', accepted') && Classify(w', counter) == Status(accepted', counter)
    decreases |counters|
  {
    if counters == [] {
      ClassifyRefines(w, accepted, counter);
    } else if Classify(w, counters[0]) == New {
      RecordRefines(w, accepted, counters[0]);
      BitmapRefinesSet(Record(w, counters[0]), accepted + {counters[0]}, counters[1..], counter);
    } else {
      BitmapRefinesSet(w, accepted, counters[1..], counter);
    }
  }

  class ReplayWindow {
    var highest: Option<u64>
    var bits: Word

    function State(): Window
      reads this
    {
      Window(highest, bits)
    }

    constructor ()
      ensures State() == EmptyWindow()
    {
      highest, bits := None, seq(64, _ => false);
    }

    method ClassifyCounter(counter: u64) returns (r: ReplayStatus)
      ensures r == Classify(State(), counter)
    {
      if highest.None? {
        return New;
      }
      if counter > highest.value {
        return New;
      }
      var distance := highest.value - counter;
      if distance >= REPLAY_WINDOW_SIZE {
        r := TooOld;
      } else if bits[distance] {
        r := Duplicate;
      } else {
        r := New;
      }
    }

    method Accept(counter: u64) returns (r: Result<()>)
      modifies this
      ensures r == if Classify(old(State()), counter) == New then Ok(()) else Err(ReplayRejected)
      ensures State() == if r.Ok? then Record(old(State()), counter) else old(State())
    {
      var status := ClassifyCounter(counter);
      if status != New {
        return Err(ReplayRejected);
      }
      if highest.None? {
        highest, bits := Some(counter), OneBit(0);
      } else if counter > highest.value {
        var shift := counter - highest.value;
        bits := if shift >= 64 then OneBit(0) else Or(ShiftLeft(bits, shift), OneBit(0));
        highest := Some(counter);
      } else {
        bits := Or(bits, OneBit(highest.value - counter));
      }
      r := Ok(());
    }
  }

  // ------------------------------------------------------------------ receiving chain

  datatype Chain = Chain(chainKey: ChainKey, next: u64, skipped: map<u64, MessageKey>, direction: Direction)

  function NewChain(chainKey: ChainKey, direction: Direction): Chain {
    Chain(chainKey, 0, map[], direction)
  }

  /** Derives and caches one key. */
  function DeriveOne(c: Chain): Chain
    requires c.next < U64_MAX
  {
    var (key, chainKey) := DeriveMessageKey(c.chainKey, c.direction);
    Chain(chainKey, c.next + 1, c.skipped[c.next := key], c.direction)
  }

  /** Derives and caches every key below `until`. */
  function DeriveUntil(c: Chain, until: u64): (r: Chain)
    ensures r.next == if c.next < until then until else c.next
    decreases until - c.next
  {
    if c.next >= until then c else DeriveUntil(DeriveOne(c), until)
  }

  function PrepareError(c: Chain, counter: u64): Option<Error> {
    if counter in c.skipped then None
    else if counter < c.next then Some(MessageKeyUnavailable(counter))
    else if counter == U64_MAX then Some(CounterOverflow)
    else if counter - c.next > MAX_SKIPPED_KEYS then Some(SkippedKeyLimit)
    else if |c.skipped| + (counter - c.next) + 1 > MAX_PREPARED_KEYS then Some(SkippedKeyLimit)
    else None
  }

  /** The chain after a key was asked for; a refusal changes nothing. */
  function Prepared(c: Chain, counter: u64): Chain {
    if counter in c.skipped || PrepareError(c, counter).Some? then c else DeriveUntil(c, counter + 1)
  }

  function Committed(c: Chain, counter: u64): Chain {
    c.(skipped := c.skipped - {counter})
  }

  // The chain seen from its seed.

  function ChainAt(seed: ChainKey, direction: Direction, n: nat): ChainKey {
    if n == 0 then seed else DeriveMessageKey(ChainAt(seed, direction, n - 1), direction).1
  }

  function KeyAt(seed: ChainKey, direction: Direction, n: nat): MessageKey {
    DeriveMessageKey(ChainAt(seed, direction, n), direction).0
  }

  /** The cache holds exactly the keys derived but not consumed, each at its own place of the chain. */
  ghost predicate ChainInv(c: Chain, seed: ChainKey, consumed: set<u64>) {
    c.chainKey == ChainAt(seed, c.direction, c.next)
    && (forall n: u64 :: n in c.skipped <==> n < c.next && n !in consumed)
    && (forall n: u64 :: n in c.skipped ==> c.skipped[n] == KeyAt(seed, c.direction, n))
    && (forall n: u64 :: n in consumed ==> n < c.next)
    && |c.skipped| <= MAX_PREPARED_KEYS
  }

  lemma {:induction false} DeriveUntilInv(c: Chain, until: u64, seed: ChainKey, consumed: set<u64>)
    requires ChainInv(c, seed, consumed) && c.next <= until
    requires |c.skipped| + (until - c.next) <= MAX_PREPARED_KEYS
    ensures var r := DeriveUntil(c, until);
            ChainInv(r, seed, consumed) && r.direction == c.direction && r.next == until
            && |r.skipped| == |c.skipped| + (until - c.next)
    decreases until - c.next
  {
    if c.next < until {
      DeriveUntilInv(DeriveOne(c), until, seed, consumed);
    }
  }

  /**
   * A counter can be prepared exactly if its key was not consumed, and it is derived already or at most 64
   * ahead of the frontier with no more than 128 keys held afterwards; the last counter is never derived.
   */
  lemma PreparableIff(c: Chain, counter: u64, seed: ChainKey, consumed: set<u64>)
    requires ChainInv(c, seed, consumed)
    ensures PrepareError(c, counter)
         == if counter in consumed then Some(MessageKeyUnavailable(counter))
            else if counter < c.next then None
            else if counter == U64_MAX then Some(CounterOverflow)
            else if counter > c.next + 64 || |c.skipped| + (counter + 1 - c.next) > 128 then Some(SkippedKeyLimit)
            else None
  {
  }

  /** Asking for a key keeps the invariant, and a key that is handed out is the one of that counter. */
  lemma PrepareInv(c: Chain, counter: u64, seed: ChainKey, consumed: set<u64>)
    requires ChainInv(c, seed, consumed)
    ensures ChainInv(Prepared(c, counter), seed, consumed) && Prepared(c, counter).direction == c.direction
    ensures PrepareError(c, counter).None? ==>
              counter in Prepared(c, counter).skipped && counter !in consumed
              && Prepared(c, counter).skipped[counter] == KeyAt(seed, c.direction, counter)
    ensures counter in consumed ==> PrepareError(c, counter) == Some(MessageKeyUnavailable(counter))
  {
    if counter !in c.skipped && PrepareError(c, counter).None? {
      DeriveUntilInv(c, counter + 1, seed, consumed);
    }
  }

  lemma CommitInv(c: Chain, counter: u64, seed: ChainKey, consumed: set<u64>)
    requires ChainInv(c, seed, consumed) && counter in c.skipped
    ensures ChainInv(Committed(c, counter), seed, consumed + {counter})
  {
    assert (c.skipped - {counter}).Keys == c.skipped.Keys - {counter};
    assert |c.skipped - {counter}| == |(c.skipped - {counter}).Keys| <= |c.skipped.Keys|;
  }

  datatype ChainCall = PrepareCall(counter: u64) | CommitCall(counter: u64)

  /** One call on a chain: the chain after it and the key it returned, if any. */
  function ChainStep(c: Chain, call: ChainCall): (Chain, Option<MessageKey>) {
    match call
    case PrepareCall(n) =>
      var r := Prepared(c, n);
      (r, if PrepareError(c, n).None? && n in r.skipped then Some(r.skipped[n]) else None)
    case CommitCall(n) => (Committed(c, n), None)
  }

  /**
   * Order-independent key agreement: in any sequence of prepare and commit calls, every key returned
   * for a counter is the key of that place in the sender's chain, and at most 128 keys are held.
   */
  lemma {:induction false} KeysAgree(c: Chain, calls: seq<ChainCall>, seed: ChainKey, consumed: set<u64>)
    requires ChainInv(c, seed, consumed)
    ensures AllKeysRight(c, calls, seed)
    decreases |calls|
  {
    if calls != [] {
      var (c', key) := ChainStep(c, calls[0]);
      match calls[0]
      case PrepareCall(n) =>
        PrepareInv(c, n, seed, consumed);
        KeysAgree(c', calls[1..], seed, consumed);
      case CommitCall(n) =>
        if n in c.skipped {
          CommitInv(c, n, seed, consumed);
          KeysAgree(c', calls[1..], seed, consumed + {n});
        } else {
          assert c.skipped - {n} == c.skipped;
          KeysAgree(c', calls[1..], seed, consumed);
        }
    }
  }

  ghost predicate AllKeysRight(c: Chain, calls: seq<ChainCall>, seed: ChainKey)
    decreases |calls|
  {
    |c.skipped| <= MAX_PREPARED_KEYS
    && (calls != [] ==>
          var (c', key) := ChainStep(c, calls[0]);
          (key.Some? ==> key.value == KeyAt(seed, c.direction, calls[0].counter))
          && (calls[0].PrepareCall? ==> (key.Some? <==> PrepareError(c, calls[0].counter).None?))
          && c'.direction == c.direction
          && AllKeysRight(c', calls[1..], seed))
  }

  class ReceivingChain {
    var chainKey: ChainKey
    var nextCounter: u64
    var skipped: map<u64, MessageKey>
    const direction: Direction

    function State(): Chain
      reads this
    {
      Chain(chainKey, nextCounter, skipped, direction)
    }

    constructor (chainKey: ChainKey, direction: Direction)
      ensures State() == NewChain(chainKey, direction)
    {
      this.chainKey, this.nextCounter, this.skipped, this.direction := chainKey, 0, map[], direction;
    }

    /** Derives or retrieves the key for a counter without consuming it. */
    method PrepareMessageKey(counter: u64) returns (r: Result<MessageKey>)
      modifies this
      ensures State() == Prepared(old(State()), counter)
      ensures match PrepareError(old(State()), counter)
              case Some(e) => r == Err(e)
              case None => counter in skipped && r == Ok(skipped[counter])
    {
      if counter in skipped {
        return Ok(skipped[counter]);
      }
      if counter < nextCounter {
        return Err(MessageKeyUnavailable(counter));
      }
      if counter == U64_MAX {
        return Err(CounterOverflow);
      }
      var gap := counter - nextCounter;
      if gap > MAX_SKIPPED_KEYS {
        return Err(SkippedKeyLimit);
      }
      if |skipped| + gap + 1 > MAX_PREPARED_KEYS {
        return Err(SkippedKeyLimit);
      }

      while nextCounter < counter
        invariant nextCounter <= counter
        invariant DeriveUntil(State(), counter + 1) == DeriveUntil(old(State()), counter + 1)
      {
        var (key, next) := DeriveMessageKey(chainKey, direction);
        skipped := skipped[nextCounter := key];
        chainKey := next;
        nextCounter := nextCounter + 1;
      }
      var (key, next) := DeriveMessageKey(chainKey, direction);
      ghost var target := State();
      chainKey := next;
      nextCounter := nextCounter + 1;
      skipped := skipped[counter := key];
      assert State() == DeriveOne(target) == DeriveUntil(DeriveOne(target), counter + 1);
      r := Ok(key);
    }

    /** The only operation that consumes a prepared key. */
    method CommitMessageKey(counter: u64) returns (r: Result<()>)
      modifies this
      ensures r == if counter in old(skipped) then Ok(()) else Err(MessageKeyUnavailable(counter))
      ensures State() == Committed(old(State()), counter)
    {
      if counter in skipped {
        skipped := skipped - {counter};
        r := Ok(());
      } else {
        assert skipped - {counter} == skipped;
        r := Err(MessageKeyUnavailable(counter));
      }
    }
  }
}
