/**
 * Deterministic map payloads (RFC 8949, section 4.2.1): one complete map with unsigned-integer keys
 * in strictly increasing order. Nested maps keep the order in which they arrived.
 */
module CanonicalMap {
  import opened Protocol
  import opened Cbor

  datatype Entry = Entry(key: u64, value: Value)

  function Flatten(es: seq<Entry>): (r: seq<Value>)
    ensures |r| == 2 * |es|
  {
    if es == [] then [] else [UInt(es[0].key), es[0].value] + Flatten(es[1..])
  }

  predicate HasUIntKeys(flat: seq<Value>)
    requires |flat| % 2 == 0
  {
    forall i :: 0 <= i < |flat| / 2 ==> flat[2 * i].UInt?
  }

  /** Inverse of Flatten. */
  function Pair(flat: seq<Value>): (r: seq<Entry>)
    requires |flat| % 2 == 0 && HasUIntKeys(flat)
    ensures |r| == |flat| / 2
    ensures forall i :: 0 <= i < |r| ==> r[i] == Entry(flat[2 * i].n, flat[2 * i + 1])
  {
    seq(|flat| / 2, i requires 0 <= i < |flat| / 2 => Entry(flat[2 * i].n, flat[2 * i + 1]))
  }

  ghost predicate Increasing(es: seq<Entry>) {
    forall i, j :: 0 <= i < j < |es| ==> es[i].key < es[j].key
  }

  predicate IncreasingNeighbours(es: seq<Entry>) {
    forall i :: 0 <= i < |es| - 1 ==> es[i].key < es[i + 1].key
  }

  // ------------------------------------------------------------------ text

  predicate IsTail(b: byte) {
    0x80 <= b <= 0xBF
  }

  /** Well-formed UTF-8 (RFC 3629, section 4): no overlong forms, no surrogates, nothing above U+10FFFF. */
  predicate IsUtf8(t: seq<byte>) {
    if t == [] then true
    else if t[0] <= 0x7F then IsUtf8(t[1..])
    else if 0xC2 <= t[0] <= 0xDF then |t| >= 2 && IsTail(t[1]) && IsUtf8(t[2..])
    else if 0xE0 <= t[0] <= 0xEF then
      |t| >= 3 && IsTail(t[1]) && IsTail(t[2]) && (t[0] == 0xE0 ==> t[1] >= 0xA0) && (t[0] == 0xED ==> t[1] <= 0x9F)
      && IsUtf8(t[3..])
    else
      0xF0 <= t[0] <= 0xF4 && |t| >= 4 && IsTail(t[1]) && IsTail(t[2]) && IsTail(t[3])
      && (t[0] == 0xF0 ==> t[1] >= 0x90) && (t[0] == 0xF4 ==> t[1] <= 0x8F) && IsUtf8(t[4..])
  }

  /** Every text string inside is UTF-8. The structural scan does not look at this; building the value does. */
  predicate Legible(v: Value) {
    match v
    case Text(text) => IsUtf8(text)
    case Array(items) => AllLegible(items)
    case Map(flat) => AllLegible(flat)
    case _ => true
  }

  predicate AllLegible(vs: seq<Value>) {
    vs == [] || (Legible(vs[0]) && AllLegible(vs[1..]))
  }

  // ------------------------------------------------------------------ canonical maps

  /** A value that may stand in a map payload. */
  predicate Admissible(v: Value) {
    Sized(v) && Fits(v, MAX_ROOM - 1) && Legible(v)
  }

  ghost predicate Encodable(es: seq<Entry>) {
    2 * |es| < U64_LIMIT && forall e :: e in es ==> Admissible(e.value)
  }

  function EncodeMap(es: seq<Entry>): seq<byte>
    requires Encodable(es)
  {
    FlattenEncodable(es);
    Encode(Map(Flatten(es)))
  }

  /** The entries of a canonical map payload, or None when the payload must be refused. */
  function CanonicalEntries(payload: seq<byte>): Option<seq<Entry>> {
    if |payload| > MAX_FRAME_SIZE then None
    else
      match Parse(payload)
      case Some(Map(flat)) =>
        if AllLegible(flat) && |flat| % 2 == 0 && HasUIntKeys(flat) && IncreasingNeighbours(Pair(flat))
        then Some(Pair(flat)) else None
      case _ => None
  }

  // ------------------------------------------------------------------ flattening

  lemma {:induction false} FlattenAt(es: seq<Entry>, i: nat)
    requires i < |es|
    ensures Flatten(es)[2 * i] == UInt(es[i].key) && Flatten(es)[2 * i + 1] == es[i].value
  {
    if i > 0 {
      FlattenAt(es[1..], i - 1);
      assert Flatten(es)[2 * i] == Flatten(es[1..])[2 * (i - 1)];
      assert Flatten(es)[2 * i + 1] == Flatten(es[1..])[2 * (i - 1) + 1];
    }
  }

  lemma PairOfFlatten(es: seq<Entry>)
    ensures HasUIntKeys(Flatten(es)) && Pair(Flatten(es)) == es
  {
    forall i | 0 <= i < |es|
      ensures Flatten(es)[2 * i] == UInt(es[i].key) && Flatten(es)[2 * i + 1] == es[i].value
    {
      FlattenAt(es, i);
    }
  }

  lemma FlattenOfPair(flat: seq<Value>)
    requires |flat| % 2 == 0 && HasUIntKeys(flat)
    ensures Flatten(Pair(flat)) == flat
  {
    var es := Pair(flat);
    forall k | 0 <= k < |flat| ensures Flatten(es)[k] == flat[k] {
      FlattenAt(es, k / 2);
      assert k == 2 * (k / 2) || k == 2 * (k / 2) + 1;
    }
  }

  lemma FlattenStep(es: seq<Entry>)
    requires es != []
    ensures Flatten(es)[0] == UInt(es[0].key) && Flatten(es)[1..][0] == es[0].value
    ensures Flatten(es)[1..][1..] == Flatten(es[1..])
  {
  }

  lemma {:induction false} AllOfFlatten(vs: seq<Value>, rest: seq<Value>, key: u64, v: Value)
    requires vs != [] && vs[1..] != [] && vs[0] == UInt(key) && vs[1..][0] == v && vs[1..][1..] == rest
    ensures AllSized(vs) <==> Sized(v) && AllSized(rest)
    ensures AllFit(vs, MAX_ROOM - 1) <==> Fits(v, MAX_ROOM - 1) && AllFit(rest, MAX_ROOM - 1)
    ensures AllLegible(vs) <==> Legible(v) && AllLegible(rest)
  {
  }

  /** What may stand in a list of items, spelled out for all of them. */
  predicate AllAdmissible(vs: seq<Value>) {
    AllSized(vs) && AllFit(vs, MAX_ROOM - 1) && AllLegible(vs)
  }

  lemma {:induction false} FlattenAll(es: seq<Entry>)
    ensures AllAdmissible(Flatten(es)) <==> forall e :: e in es ==> Admissible(e.value)
  {
    hide AllAdmissible, Admissible, Flatten;
    if es == [] {
      NothingAdmissible();
    } else {
      FlattenAll(es[1..]);
      OneMore(es);
      assert es == [es[0]] + es[1..];
    }
  }

  lemma NothingAdmissible()
    ensures AllAdmissible(Flatten([]))
  {
  }

  lemma OneMore(es: seq<Entry>)
    requires es != []
    ensures AllAdmissible(Flatten(es)) <==> Admissible(es[0].value) && AllAdmissible(Flatten(es[1..]))
  {
    hide AllSized, AllFit, AllLegible, Sized, Fits, Legible;
    FlattenStep(es);
    AllOfFlatten(Flatten(es), Flatten(es[1..]), es[0].key, es[0].value);
  }

  lemma FlattenEncodable(es: seq<Entry>)
    ensures Encodable(es)
       <==> Sized(Map(Flatten(es))) && Fits(Map(Flatten(es)), MAX_ROOM) && Legible(Map(Flatten(es)))
  {
    FlattenAll(es);
    if es == [] {
      NothingAdmissible();
    }
  }

  lemma {:induction false} NeighboursSuffice(es: seq<Entry>)
    ensures IncreasingNeighbours(es) <==> Increasing(es)
  {
    if IncreasingNeighbours(es) {
      forall i, j | 0 <= i < j < |es| ensures es[i].key < es[j].key {
        Climb(es, i, j);
      }
    }
  }

  lemma {:induction false} Climb(es: seq<Entry>, i: nat, j: nat)
    requires IncreasingNeighbours(es) && i < j < |es|
    ensures es[i].key < es[j].key
    decreases j
  {
    if i + 1 < j {
      Climb(es, i, j - 1);
      assert es[j - 1].key < es[j - 1 + 1].key;
    } else {
      assert es[i].key < es[i + 1].key;
    }
  }

  // ------------------------------------------------------------------ what is accepted

  /** A payload is accepted with entries `es` exactly when it is the one deterministic encoding of `es`. */
  lemma CanonicalIffEncoding(payload: seq<byte>, es: seq<Entry>)
    ensures CanonicalEntries(payload) == Some(es)
       <==> |payload| <= MAX_FRAME_SIZE && Increasing(es) && Encodable(es) && payload == EncodeMap(es)
  {
    NeighboursSuffice(es);
    if CanonicalEntries(payload) == Some(es) {
      var v := Parse(payload).value;
      FlattenOfPair(v.flat);
      ParseIffEncoding(payload, v);
      FlattenEncodable(es);
    }
    if |payload| <= MAX_FRAME_SIZE && Increasing(es) && Encodable(es) && payload == EncodeMap(es) {
      FlattenEncodable(es);
      PairOfFlatten(es);
      ParseIffEncoding(payload, Map(Flatten(es)));
    }
  }

  // ------------------------------------------------------------------ key order

  /** The strings agree before `k`, and there the first ends or has the lesser byte. */
  predicate LessFrom(a: seq<byte>, b: seq<byte>, k: nat) {
    k <= |a| && k < |b| && a[..k] == b[..k] && (k == |a| || a[k] < b[k])
  }

  ghost predicate LexLess(a: seq<byte>, b: seq<byte>) {
    exists k :: LessFrom(a, b, k)
  }

  lemma {:induction false} BigEndianOrder(a: nat, b: nat, k: nat) returns (p: nat)
    requires a < b < Pow256(k)
    ensures p < k && BigEndian(a, k)[..p] == BigEndian(b, k)[..p] && BigEndian(a, k)[p] < BigEndian(b, k)[p]
  {
    if a / 256 == b / 256 {
      p := k - 1;
    } else {
      p := BigEndianOrder(a / 256, b / 256, k - 1);
      assert BigEndian(a, k)[..p] == BigEndian(a / 256, k - 1)[..p];
      assert BigEndian(b, k)[..p] == BigEndian(b / 256, k - 1)[..p];
    }
  }

  lemma OneWay(a: seq<byte>, b: seq<byte>, k: nat, l: nat)
    requires LessFrom(a, b, k)
    ensures !LessFrom(b, a, l)
  {
    if k < l <= |a| && l <= |b| {
      assert a[..l][k] == a[k] && b[..l][k] == b[k];
    } else if l < k {
      assert a[..k][l] == a[l] && b[..k][l] == b[l];
    }
  }

  lemma LexAsymmetric(a: seq<byte>, b: seq<byte>)
    requires LexLess(a, b)
    ensures !LexLess(b, a)
  {
    var k: nat :| LessFrom(a, b, k);
    forall l: nat
      ensures !LessFrom(b, a, l)
    {
      OneWay(a, b, k, l);
    }
  }

  lemma LexIrreflexive(a: seq<byte>)
    ensures !LexLess(a, a)
  {
    if LexLess(a, a) {
      LexAsymmetric(a, a);
    }
  }

  /** Numeric key order is the bytewise order of the encoded keys (RFC 8949, section 4.2.1). */
  lemma KeyOrderIsBytewise(a: u64, b: u64)
    ensures a < b <==> LexLess(Encode(UInt(a)), Encode(UInt(b)))
  {
    if a < b {
      LesserKeyFirst(a, b);
    } else if b < a {
      LesserKeyFirst(b, a);
      LexAsymmetric(Encode(UInt(b)), Encode(UInt(a)));
    } else {
      LexIrreflexive(Encode(UInt(a)));
    }
  }

  lemma LesserKeyFirst(a: u64, b: u64)
    requires a < b
    ensures LexLess(Encode(UInt(a)), Encode(UInt(b)))
  {
    var x, y := Head(0, a), Head(0, b);
    if x[0] < y[0] {
      assert LessFrom(x, y, 0);
    } else {
      Powers();
      var w := |y| - 1;
      assert |x| == |y| && x[0] == y[0];
      var p := BigEndianOrder(a, b, w);
      assert x[..p + 1] == [x[0]] + BigEndian(a, w)[..p];
      assert y[..p + 1] == [y[0]] + BigEndian(b, w)[..p];
      assert x[p + 1] == BigEndian(a, w)[p] && y[p + 1] == BigEndian(b, w)[p];
      assert LessFrom(x, y, p + 1);
    }
  }

  /** Big-endian numbers of one width compare as their bytes do. */
  lemma NumberOrderIsBytewise(a: nat, b: nat, width: nat)
    requires a < Pow256(width) && b < Pow256(width)
    ensures a < b <==> LexLess(BigEndian(a, width), BigEndian(b, width))
  {
    var x, y := BigEndian(a, width), BigEndian(b, width);
    if a < b {
      var p := BigEndianOrder(a, b, width);
      assert LessFrom(x, y, p);
    } else if b < a {
      var p := BigEndianOrder(b, a, width);
      assert LessFrom(y, x, p);
      LexAsymmetric(y, x);
    } else {
      LexIrreflexive(x);
    }
  }

  /** The encoded keys stand in strictly increasing bytewise order. */
  ghost predicate BytewiseSorted(es: seq<Entry>) {
    forall i, j :: 0 <= i < j < |es| ==> LexLess(Encode(UInt(es[i].key)), Encode(UInt(es[j].key)))
  }

  /** The accepted payloads are the deterministically encoded ones in the words of section 4.2.1 of RFC 8949. */
  lemma AcceptedIffDeterministic(payload: seq<byte>, es: seq<Entry>)
    ensures CanonicalEntries(payload) == Some(es)
       <==> |payload| <= MAX_FRAME_SIZE && BytewiseSorted(es) && Encodable(es) && payload == EncodeMap(es)
  {
    CanonicalIffEncoding(payload, es);
    assert BytewiseSorted(es) <==> Increasing(es) by {
      hide LexLess, Encode;
      forall i, j | 0 <= i < j < |es|
        ensures es[i].key < es[j].key <==> LexLess(Encode(UInt(es[i].key)), Encode(UInt(es[j].key)))
      {
        KeyOrderIsBytewise(es[i].key, es[j].key);
      }
    }
  }

  // ------------------------------------------------------------------ the validator

  /** Errors that machine.rs treats as a structurally invalid DATA frame. */
  predicate IsMalformed(e: Error) {
    e.NotText? || e.NonCanonicalEncoding? || e.InvalidPayloadShape? || e.InvalidMapKey? || e.DuplicateMapKey?
    || e.InvalidLength? || e.InvalidFrameLength? || e.TruncatedFrame? || e.DataTooLarge?
  }

  ghost predicate Ascending(es: seq<Entry>) {
    forall i, j :: 0 <= i < j < |es| ==> es[i].key <= es[j].key
  }

  method InsertByKey(sorted: seq<Entry>, e: Entry) returns (r: seq<Entry>)
    requires Ascending(sorted)
    ensures Ascending(r) && multiset(r) == multiset(sorted) + multiset{e}
    ensures (sorted != [] ==> sorted[|sorted| - 1].key <= e.key) ==> r == sorted + [e]
  {
    var at := |sorted|;
    while at > 0 && sorted[at - 1].key > e.key
      invariant 0 <= at <= |sorted|
      invariant at < |sorted| ==> sorted[at].key > e.key
    {
      at := at - 1;
    }
    AscendingInsert(sorted, at, e);
    InsertKeepsElements(sorted, at, e);
    r := sorted[..at] + [e] + sorted[at..];
  }

  lemma AscendingInsert(sorted: seq<Entry>, at: nat, e: Entry)
    requires Ascending(sorted) && at <= |sorted|
    requires at > 0 ==> sorted[at - 1].key <= e.key
    requires at < |sorted| ==> sorted[at].key > e.key
    ensures Ascending(sorted[..at] + [e] + sorted[at..])
  {
    var low, high := sorted[..at], sorted[at..];
    assert Ascending(low) && Ascending(high);
    AscendingJoin(low, [e]);
    AscendingJoin(low + [e], high);
  }

  lemma InsertKeepsElements(sorted: seq<Entry>, at: nat, e: Entry)
    requires at <= |sorted|
    ensures multiset(sorted[..at] + [e] + sorted[at..]) == multiset(sorted) + multiset{e}
  {
    assert sorted == sorted[..at] + sorted[at..];
  }

  lemma AscendingJoin(low: seq<Entry>, high: seq<Entry>)
    requires Ascending(low) && Ascending(high)
    requires low != [] && high != [] ==> low[|low| - 1].key <= high[0].key
    ensures Ascending(low + high)
  {
    var r := low + high;
    forall i, j | 0 <= i < j < |r| ensures r[i].key <= r[j].key {
      if i < |low| <= j {
        assert low[i].key <= low[|low| - 1].key;
        assert high[0].key <= high[j - |low|].key;
      }
    }
  }

  method SortByKey(es: seq<Entry>) returns (r: seq<Entry>)
    ensures Ascending(r) && multiset(r) == multiset(es)
    ensures Increasing(es) ==> r == es
  {
    r := [];
    for k := 0 to |es|
      invariant Ascending(r) && multiset(r) == multiset(es[..k])
      invariant Increasing(es) ==> r == es[..k]
    {
      assert es[..k + 1] == es[..k] + [es[k]];
      r := InsertByKey(r, es[k]);
    }
    assert es[..|es|] == es;
  }

  /** Reads the keys, refusing the first that is no unsigned integer or repeats an earlier one. */
  method CollectEntries(flat: seq<Value>) returns (r: Result<seq<Entry>>)
    requires |flat| % 2 == 0
    ensures r.Ok? ==> HasUIntKeys(flat) && r.value == Pair(flat)
    ensures r.Ok? ==> forall k, l :: 0 <= k < l < |r.value| ==> r.value[k].key != r.value[l].key
    ensures r.Err? ==> (HasUIntKeys(flat) ==> !Increasing(Pair(flat))) && IsMalformed(r.error)
  {
    var keys: set<u64> := {};
    var entries: seq<Entry> := [];
    for i := 0 to |flat| / 2
      invariant |entries| == i
      invariant forall k :: 0 <= k < i ==> flat[2 * k].UInt? && entries[k] == Entry(flat[2 * k].n, flat[2 * k + 1])
      invariant forall k :: 0 <= k < i ==> entries[k].key in keys
      invariant forall x :: x in keys ==> exists k :: 0 <= k < i && entries[k].key == x
      invariant forall k, l :: 0 <= k < l < i ==> entries[k].key != entries[l].key
    {
      var key := flat[2 * i];
      if !key.UInt? {
        return Err(InvalidMapKey);
      }
      if key.n in keys {
        ghost var k :| 0 <= k < i && entries[k].key == key.n;
        assert HasUIntKeys(flat) ==> Pair(flat)[k].key == Pair(flat)[i].key;
        return Err(DuplicateMapKey(key.n));
      }
      keys := keys + {key.n};
      entries := entries + [Entry(key.n, flat[2 * i + 1])];
    }
    assert entries == Pair(flat);
    r := Ok(entries);
  }

  /** Verifies that a payload is one complete deterministic map and returns its entries. */
  method ValidateMap(payload: seq<byte>) returns (r: Result<seq<Entry>>)
    ensures r.Ok? <==> CanonicalEntries(payload).Some?
    ensures r.Ok? ==> r.value == CanonicalEntries(payload).value
    ensures r.Err? ==> IsMalformed(r.error)
  {
    if |payload| > MAX_FRAME_SIZE {
      return Err(InvalidFrameLength(|payload|));
    }
    var structure := ValidateStructure(payload);
    if structure.Err? {
      return Err(structure.error);
    }
    var value := Parse(payload).value;
    ParseIffEncoding(payload, value);
    if !Legible(value) {
      return Err(NotText);
    }
    if !value.Map? {
      return Err(InvalidPayloadShape);
    }

    ghost var flat := value.flat;
    var collected := CollectEntries(value.flat);
    if collected.Err? {
      if HasUIntKeys(flat) {
        NeighboursSuffice(Pair(flat));
      }
      return collected;
    }
    var entries := collected.value;
    var sorted := SortByKey(entries);
    SortedIsCanonical(payload, flat, sorted);
    var canonical := EncodeMap(sorted);
    if canonical != payload {
      return Err(NonCanonicalEncoding);
    }
    r := Ok(sorted);
  }

  /** Re-encoding the sorted entries gives the payload back exactly when they were in order already. */
  lemma SortedIsCanonical(payload: seq<byte>, flat: seq<Value>, sorted: seq<Entry>)
    requires Parse(payload) == Some(Map(flat)) && |payload| <= MAX_FRAME_SIZE
    requires |flat| % 2 == 0 && HasUIntKeys(flat) && AllLegible(flat)
    requires Ascending(sorted) && multiset(sorted) == multiset(Pair(flat))
    requires forall k, l :: 0 <= k < l < |Pair(flat)| ==> Pair(flat)[k].key != Pair(flat)[l].key
    requires Increasing(Pair(flat)) ==> sorted == Pair(flat)
    ensures Encodable(sorted)
    ensures EncodeMap(sorted) == payload <==> CanonicalEntries(payload).Some?
    ensures EncodeMap(sorted) == payload ==> CanonicalEntries(payload).value == sorted
  {
    hide Sized, Fits, Legible, AllLegible, HasUIntKeys, Ascending;
    var es := Pair(flat);
    ParseIffEncoding(payload, Map(flat));
    FlattenOfPair(flat);
    FlattenEncodable(es);
    LegibleMap(flat);
    SameElements(es, sorted);
    CanonicalIffEncoding(payload, sorted);
    NeighboursSuffice(es);
    if EncodeMap(sorted) == payload {
      FlattenEncodable(sorted);
      ParseIffEncoding(payload, Map(Flatten(sorted)));
      assert Map(Flatten(sorted)) == Map(flat);
      PairOfFlatten(sorted);
      assert sorted == es;
      DistinctAscends(sorted);
    }
    if CanonicalEntries(payload).Some? {
      CanonicalIffEncoding(payload, es);
    }
  }

  lemma LegibleMap(flat: seq<Value>)
    ensures Legible(Map(flat)) <==> AllLegible(flat)
  {
  }

  lemma SameElements(es: seq<Entry>, sorted: seq<Entry>)
    requires multiset(es) == multiset(sorted) && Encodable(es)
    ensures Encodable(sorted)
  {
    hide Admissible;
    assert |sorted| == |multiset(sorted)| == |es|;
    forall e | e in sorted
      ensures Admissible(e.value)
    {
      assert e in multiset(sorted);
    }
  }

  lemma DistinctAscends(es: seq<Entry>)
    requires Ascending(es) && forall k, l :: 0 <= k < l < |es| ==> es[k].key != es[l].key
    ensures Increasing(es)
  {
  }
}
