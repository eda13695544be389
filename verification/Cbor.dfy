/**
 * The subset of CBOR (RFC 8949) that RUXMSG/1 admits: an encoder written from sections 3 and 4.1,
 * a recursive-descent parser that is proved to be its exact inverse, and the iterative
 * explicit-stack scan of wire.rs, proved to accept exactly what the parser accepts.
 */
module Cbor {
  import opened Protocol

  const MAX_CBOR_NESTING: nat := 32

  /** Non-empty containers that may be open inside each other. */
  const MAX_ROOM: nat := MAX_CBOR_NESTING - 1

  /** A map keeps its keys and values flattened, in the order they stand on the wire. */
  datatype Value =
    | UInt(n: u64)
    | NInt(n: u64)
    | Bytes(bytes: seq<byte>)
    | Text(text: seq<byte>)
    | Array(items: seq<Value>)
    | Map(flat: seq<Value>)

  // ------------------------------------------------------------------ big-endian arguments

  function Pow256(k: nat): nat {
    if k == 0 then 1 else 256 * Pow256(k - 1)
  }

  function BigEndian(v: nat, k: nat): (r: seq<byte>)
    ensures |r| == k
  {
    if k == 0 then [] else BigEndian(v / 256, k - 1) + [(v % 256) as byte]
  }

  function FromBigEndian(bs: seq<byte>): nat {
    if bs == [] then 0 else FromBigEndian(bs[..|bs| - 1]) * 256 + bs[|bs| - 1] as nat
  }

  lemma {:induction false} FromBigEndianOfBigEndian(v: nat, k: nat)
    requires v < Pow256(k)
    ensures FromBigEndian(BigEndian(v, k)) == v
  {
    if k > 0 {
      FromBigEndianOfBigEndian(v / 256, k - 1);
      assert BigEndian(v, k)[..k - 1] == BigEndian(v / 256, k - 1);
    }
  }

  lemma {:induction false} BigEndianOfFromBigEndian(bs: seq<byte>)
    ensures FromBigEndian(bs) < Pow256(|bs|)
    ensures BigEndian(FromBigEndian(bs), |bs|) == bs
  {
    if bs != [] {
      BigEndianOfFromBigEndian(bs[..|bs| - 1]);
      assert bs == bs[..|bs| - 1] + [bs[|bs| - 1]];
    }
  }

  lemma Powers()
    ensures Pow256(1) == 0x100 && Pow256(2) == 0x1_0000
    ensures Pow256(4) == 0x1_0000_0000 && Pow256(8) == U64_LIMIT
  {
    assert Pow256(2) == 256 * Pow256(1);
    assert Pow256(4) == 256 * (256 * Pow256(2));
    assert Pow256(6) == 256 * (256 * Pow256(4));
    assert Pow256(8) == 256 * (256 * Pow256(6));
  }

  // ------------------------------------------------------------------ heads (RFC 8949, section 3)

  /** Argument bytes of the shortest form (RFC 8949, section 4.1). */
  function Width(arg: u64): nat {
    if arg < 24 then 0 else if arg < 0x100 then 1 else if arg < 0x1_0000 then 2
    else if arg < 0x1_0000_0000 then 4 else 8
  }

  /** The low five bits of the initial byte. */
  function Additional(arg: u64): (r: nat)
    ensures r < 28
  {
    match Width(arg)
    case 0 => arg
    case 1 => 24
    case 2 => 25
    case 4 => 26
    case _ => 27
  }

  function Head(major: nat, arg: u64): (r: seq<byte>)
    requires major < 8
    ensures |r| >= 1
  {
    [(major * 32 + Additional(arg)) as byte] + BigEndian(arg, Width(arg))
  }

  datatype HeadInfo = HeadInfo(major: nat, arg: nat, size: nat)

  /** Number of argument bytes announced by the low five bits of an initial byte. */
  function ArgumentWidth(additional: nat): Option<nat> {
    if additional < 24 then Some(0)
    else if additional == 24 then Some(1)
    else if additional == 25 then Some(2)
    else if additional == 26 then Some(4)
    else if additional == 27 then Some(8)
    else None
  }

  predicate IsShortest(width: nat, value: nat) {
    (width == 0 && value < 24) || (width == 1 && value >= 24) || (width == 2 && value > 0xFF)
    || (width == 4 && value > 0xFFFF) || (width == 8 && value > 0xFFFF_FFFF)
  }

  function ParseHead(b: seq<byte>): Option<HeadInfo> {
    if b == [] then None
    else
      var major := b[0] as nat / 32;
      var additional := b[0] as nat % 32;
      match ArgumentWidth(additional)
      case None => None
      case Some(w) =>
        if w == 0 then Some(HeadInfo(major, additional, 1))
        else if |b| < 1 + w then None
        else
          var value := FromBigEndian(b[1..1 + w]);
          if IsShortest(w, value) then Some(HeadInfo(major, value, 1 + w)) else None
  }

  lemma ShortestForm(arg: u64)
    ensures ArgumentWidth(Additional(arg)) == Some(Width(arg))
    ensures IsShortest(Width(arg), arg) && (Width(arg) > 0 ==> arg < Pow256(Width(arg)))
  {
    Powers();
  }

  lemma InitialByte(major: nat, additional: nat)
    requires major < 8 && additional < 32
    ensures major * 32 + additional < 256
    ensures (major * 32 + additional) / 32 == major && (major * 32 + additional) % 32 == additional
  {
  }

  lemma ArgumentBytes(major: nat, arg: u64, rest: seq<byte>)
    requires major < 8
    ensures var b, w := Head(major, arg) + rest, Width(arg);
            |b| >= 1 + w && b[0] as nat == major * 32 + Additional(arg)
            && (w > 0 ==> FromBigEndian(b[1..1 + w]) == arg)
  {
    var b, w := Head(major, arg) + rest, Width(arg);
    assert b[1..1 + w] == BigEndian(arg, w);
    ShortestForm(arg);
    if w > 0 {
      FromBigEndianOfBigEndian(arg, w);
    }
  }

  lemma ParseHeadOfHead(major: nat, arg: u64, rest: seq<byte>)
    requires major < 8
    ensures ParseHead(Head(major, arg) + rest) == Some(HeadInfo(major, arg, |Head(major, arg)|))
  {
    InitialByte(major, Additional(arg));
    ArgumentBytes(major, arg, rest);
    ShortestForm(arg);
  }

  lemma HeadFromArgument(initial: byte, encoded: seq<byte>)
    requires ArgumentWidth(initial as nat % 32) == Some(|encoded|) && |encoded| > 0
    requires IsShortest(|encoded|, FromBigEndian(encoded))
    ensures FromBigEndian(encoded) < U64_LIMIT
    ensures Head(initial as nat / 32, FromBigEndian(encoded)) == [initial] + encoded
  {
    var major, additional, arg := initial as nat / 32, initial as nat % 32, FromBigEndian(encoded);
    BigEndianOfFromBigEndian(encoded);
    WidthOfShortest(|encoded|, arg);
    assert Additional(arg) == additional;
    assert initial == (major * 32 + additional) as byte;
  }

  lemma WidthOfShortest(w: nat, v: nat)
    requires IsShortest(w, v) && (w > 0 ==> v < Pow256(w))
    ensures v < U64_LIMIT && Width(v) == w && ArgumentWidth(Additional(v)) == Some(w)
  {
    Powers();
  }

  lemma HeadOfParseHead(b: seq<byte>)
    requires ParseHead(b).Some?
    ensures var h := ParseHead(b).value;
            h.major < 8 && h.arg < U64_LIMIT && 1 <= h.size <= |b| && b[..h.size] == Head(h.major, h.arg)
  {
    var h := ParseHead(b).value;
    if h.size > 1 {
      HeadFromArgument(b[0], b[1..h.size]);
      assert b[..h.size] == [b[0]] + b[1..h.size];
    } else {
      assert b[..1] == [b[0]];
    }
  }

  // ------------------------------------------------------------------ encoder

  function Encode(v: Value): (r: seq<byte>)
    requires Sized(v)
    ensures |r| >= 1
  {
    match v
    case UInt(n) => Head(0, n)
    case NInt(n) => Head(1, n)
    case Bytes(bytes) => Head(2, |bytes|) + bytes
    case Text(text) => Head(3, |text|) + text
    case Array(items) => Head(4, |items|) + EncodeAll(items)
    case Map(flat) => Head(5, |flat| / 2) + EncodeAll(flat)
  }

  function EncodeAll(vs: seq<Value>): seq<byte>
    requires AllSized(vs)
  {
    if vs == [] then [] else Encode(vs[0]) + EncodeAll(vs[1..])
  }

  /** Every length fits the 64-bit argument of its head, and maps hold whole pairs. */
  predicate Sized(v: Value) {
    match v
    case UInt(_) => true
    case NInt(_) => true
    case Bytes(bytes) => |bytes| < U64_LIMIT
    case Text(text) => |text| < U64_LIMIT
    case Array(items) => |items| < U64_LIMIT && AllSized(items)
    case Map(flat) => |flat| < U64_LIMIT && |flat| % 2 == 0 && AllSized(flat)
  }

  predicate AllSized(vs: seq<Value>) {
    vs == [] || (Sized(vs[0]) && AllSized(vs[1..]))
  }

  /** At most `room` non-empty containers are nested inside each other. */
  predicate Fits(v: Value, room: nat) {
    match v
    case Array(items) => items == [] || (room > 0 && AllFit(items, room - 1))
    case Map(flat) => flat == [] || (room > 0 && AllFit(flat, room - 1))
    case _ => true
  }

  predicate AllFit(vs: seq<Value>, room: nat) {
    vs == [] || (Fits(vs[0], room) && AllFit(vs[1..], room))
  }

  // ------------------------------------------------------------------ parser

  datatype Parsed<T> = Parsed(value: T, rest: seq<byte>)

  function ParseItem(b: seq<byte>, room: nat): (r: Option<Parsed<Value>>)
    ensures r.Some? ==> |r.value.rest| < |b|
    decreases |b|, 0
  {
    match ParseHead(b)
    case None => None
    case Some(h) =>
      HeadOfParseHead(b);
      var body := b[h.size..];
      if h.major == 0 then Some(Parsed(UInt(h.arg), body))
      else if h.major == 1 then Some(Parsed(NInt(h.arg), body))
      else if h.major == 2 || h.major == 3 then
        if |body| < h.arg then None
        else Some(Parsed(if h.major == 2 then Bytes(body[..h.arg]) else Text(body[..h.arg]), body[h.arg..]))
      else if h.major == 4 then ParseContainer(body, h.arg, room, false)
      else if h.major == 5 then ParseContainer(body, 2 * h.arg, room, true)
      else None
  }

  function ParseContainer(body: seq<byte>, count: nat, room: nat, isMap: bool): (r: Option<Parsed<Value>>)
    ensures r.Some? ==> |r.value.rest| <= |body|
    decreases |body|, count + 1
  {
    if count >= U64_LIMIT || (count > 0 && room == 0) then None
    else
      match ParseItems(body, count, if room == 0 then 0 else room - 1)
      case None => None
      case Some(Parsed(items, rest)) => Some(Parsed(if isMap then Map(items) else Array(items), rest))
  }

  function ParseItems(b: seq<byte>, count: nat, room: nat): (r: Option<Parsed<seq<Value>>>)
    ensures r.Some? ==> |r.value.value| == count && |r.value.rest| <= |b|
    decreases |b|, count
  {
    if count == 0 then Some(Parsed([], b))
    else
      match ParseItem(b, room)
      case None => None
      case Some(Parsed(v, rest)) =>
        match ParseItems(rest, count - 1, room)
        case None => None
        case Some(Parsed(vs, rest')) => Some(Parsed([v] + vs, rest'))
  }

  /** The value a whole payload encodes. */
  function Parse(payload: seq<byte>): Option<Value> {
    match ParseItem(payload, MAX_ROOM)
    case None => None
    case Some(Parsed(v, rest)) => if rest == [] then Some(v) else None
  }

  // ------------------------------------------------------------------ parser = inverse of the encoder

  lemma {:induction false} ParseItemSound(b: seq<byte>, room: nat)
    requires ParseItem(b, room).Some?
    ensures var p := ParseItem(b, room).value;
            Sized(p.value) && Fits(p.value, room) && b == Encode(p.value) + p.rest
    decreases |b|, 0
  {
    var h := ParseHead(b).value;
    HeadOfParseHead(b);
    var head, body := b[..h.size], b[h.size..];
    assert b == head + body;
    if h.major < 2 {
    } else if h.major < 4 {
      StringSound(head, body, h.arg);
    } else if h.major == 4 {
      ParseContainerSound(body, h.arg, room, false);
    } else {
      ParseContainerSound(body, 2 * h.arg, room, true);
    }
  }

  lemma StringSound(head: seq<byte>, body: seq<byte>, n: nat)
    requires n <= |body|
    ensures head + body == head + body[..n] + body[n..]
  {
    assert body == body[..n] + body[n..];
  }

  lemma {:induction false} ParseContainerSound(body: seq<byte>, count: nat, room: nat, isMap: bool)
    requires ParseContainer(body, count, room, isMap).Some? && (isMap ==> count % 2 == 0)
    ensures var p := ParseContainer(body, count, room, isMap).value;
            Sized(p.value) && Fits(p.value, room)
            && Head(if isMap then 5 else 4, if isMap then count / 2 else count) + body == Encode(p.value) + p.rest
    decreases |body|, count + 1
  {
    var inner := if room == 0 then 0 else room - 1;
    ParseItemsSound(body, count, inner);
    var items := ParseItems(body, count, inner).value;
    var h := Head(if isMap then 5 else 4, if isMap then count / 2 else count);
    assert h + (EncodeAll(items.value) + items.rest) == (h + EncodeAll(items.value)) + items.rest;
  }

  lemma {:induction false} ParseItemsSound(b: seq<byte>, count: nat, room: nat)
    requires ParseItems(b, count, room).Some?
    ensures var p := ParseItems(b, count, room).value;
            AllSized(p.value) && AllFit(p.value, room) && b == EncodeAll(p.value) + p.rest
    decreases |b|, count
  {
    if count > 0 {
      ParseItemSound(b, room);
      var first := ParseItem(b, room).value;
      ParseItemsSound(first.rest, count - 1, room);
      var tail := ParseItems(first.rest, count - 1, room).value;
      EncodeAllCons(first.value, tail.value, room);
      Associative(Encode(first.value), EncodeAll(tail.value), tail.rest);
    }
  }

  lemma EncodeAllCons(v: Value, vs: seq<Value>, room: nat)
    requires Sized(v) && AllSized(vs) && Fits(v, room) && AllFit(vs, room)
    ensures AllSized([v] + vs) && AllFit([v] + vs, room)
    ensures EncodeAll([v] + vs) == Encode(v) + EncodeAll(vs)
  {
    assert ([v] + vs)[1..] == vs;
  }

  lemma Associative<T>(x: seq<T>, y: seq<T>, z: seq<T>)
    ensures x + (y + z) == (x + y) + z
  {
  }

  lemma {:induction false} ParseItemComplete(v: Value, rest: seq<byte>, room: nat)
    requires Sized(v) && Fits(v, room)
    ensures ParseItem(Encode(v) + rest, room) == Some(Parsed(v, rest))
    decreases v, 0
  {
    match v
    case UInt(n) => ScalarComplete(0, n, rest);
    case NInt(n) => ScalarComplete(1, n, rest);
    case Bytes(bytes) => StringComplete(2, bytes, rest);
    case Text(text) => StringComplete(3, text, rest);
    case Array(items) => ContainerComplete(v, items, rest, room);
    case Map(flat) => ContainerComplete(v, flat, rest, room);
  }

  lemma ScalarComplete(major: nat, n: u64, rest: seq<byte>)
    requires major < 2
    ensures ParseHead(Head(major, n) + rest) == Some(HeadInfo(major, n, |Head(major, n)|))
    ensures (Head(major, n) + rest)[|Head(major, n)|..] == rest
  {
    ParseHeadOfHead(major, n, rest);
  }

  lemma {:induction false} ContainerComplete(v: Value, items: seq<Value>, rest: seq<byte>, room: nat)
    requires v == Array(items) || v == Map(items)
    requires Sized(v) && Fits(v, room)
    ensures ParseItem(Encode(v) + rest, room) == Some(Parsed(v, rest))
    decreases items, 1
  {
    var arg := if v.Array? then |items| else |items| / 2;
    var body := EncodeAll(items) + rest;
    Associative(Head(if v.Array? then 4 else 5, arg), EncodeAll(items), rest);
    ItemIsContainer(arg, body, room, v.Map?);
    ParseItemsComplete(items, rest, if room == 0 then 0 else room - 1);
  }

  lemma ItemIsContainer(arg: u64, body: seq<byte>, room: nat, isMap: bool)
    ensures ParseItem(Head(if isMap then 5 else 4, arg) + body, room)
         == ParseContainer(body, if isMap then 2 * arg else arg, room, isMap)
  {
    var h := Head(if isMap then 5 else 4, arg);
    ParseHeadOfHead(if isMap then 5 else 4, arg, body);
    assert (h + body)[|h|..] == body;
  }

  lemma StringComplete(major: nat, s: seq<byte>, rest: seq<byte>)
    requires (major == 2 || major == 3) && |s| < U64_LIMIT
    ensures var b := Head(major, |s|) + s + rest;
            ParseHead(b) == Some(HeadInfo(major, |s|, |Head(major, |s|)|))
            && b[|Head(major, |s|)|..][..|s|] == s && b[|Head(major, |s|)|..][|s|..] == rest
  {
    var h := Head(major, |s|);
    var b := h + s + rest;
    assert b == h + (s + rest);
    ParseHeadOfHead(major, |s|, s + rest);
    assert b[|h|..] == s + rest;
  }

  lemma {:induction false} ParseItemsComplete(vs: seq<Value>, rest: seq<byte>, room: nat)
    requires AllSized(vs) && AllFit(vs, room)
    ensures ParseItems(EncodeAll(vs) + rest, |vs|, room) == Some(Parsed(vs, rest))
    decreases vs, 0
  {
    if vs == [] {
      assert EncodeAll(vs) + rest == rest;
    } else {
      var tail := EncodeAll(vs[1..]) + rest;
      assert EncodeAll(vs) + rest == Encode(vs[0]) + tail;
      ParseItemComplete(vs[0], tail, room);
      ParseItemsComplete(vs[1..], rest, room);
      assert [vs[0]] + vs[1..] == vs;
    }
  }

  /** A payload parses to `v` exactly when it is the encoding of `v`: the accepted encoding is unique. */
  lemma ParseIffEncoding(payload: seq<byte>, v: Value)
    ensures Parse(payload) == Some(v) <==> Sized(v) && Fits(v, MAX_ROOM) && payload == Encode(v)
  {
    if Parse(payload) == Some(v) {
      ParseItemSound(payload, MAX_ROOM);
      assert Encode(v) + [] == Encode(v);
    }
    if Sized(v) && Fits(v, MAX_ROOM) && payload == Encode(v) {
      ParseItemComplete(v, [], MAX_ROOM);
      assert Encode(v) + [] == Encode(v);
    }
  }

  // ------------------------------------------------------------------ the explicit-stack scan

  /** What a scan that stands before `b` with these open containers still has to accept. */
  ghost predicate Accepts(b: seq<byte>, remaining: seq<nat>)
    requires |remaining| <= MAX_CBOR_NESTING
    decreases |remaining|
  {
    if remaining == [] then b == []
    else
      var last := |remaining| - 1;
      var r := ParseItems(b, remaining[last], MAX_CBOR_NESTING - |remaining|);
      r.Some? && Accepts(r.value.rest, remaining[..last])
  }

  /** One item taken from the innermost container that still expects some. */
  lemma AcceptsItem(b: seq<byte>, remaining: seq<nat>, outer: seq<nat>, count: nat)
    requires 1 <= |remaining| <= MAX_CBOR_NESTING
    requires remaining == outer + [count] && count > 0
    ensures var item := ParseItem(b, MAX_CBOR_NESTING - |remaining|);
            Accepts(b, remaining) <==> item.Some? && Accepts(item.value.rest, outer + [count - 1])
  {
    assert remaining[..|outer|] == outer;
    assert (outer + [count - 1])[..|outer|] == outer;
  }

  lemma ItemOfHead(b: seq<byte>, h: HeadInfo, room: nat)
    requires ParseHead(b) == Some(h) && h.size <= |b|
    ensures var body, item := b[h.size..], ParseItem(b, room);
            if h.major <= 1 then item.Some? && item.value.rest == body
            else if h.major <= 3 then
              item.Some? == (h.arg <= |body|) && (item.Some? ==> item.value.rest == body[h.arg..])
            else if h.major <= 5 then
              item == ParseContainer(body, if h.major == 4 then h.arg else 2 * h.arg, room, h.major == 5)
            else item.None?
  {
  }

  lemma NoItemWithoutHead(b: seq<byte>, room: nat)
    requires ParseHead(b).None?
    ensures ParseItem(b, room).None?
  {
  }

  /** Entering a container: its items are scanned first, then what follows it. */
  lemma ScanContainer(body: seq<byte>, remaining: seq<nat>, items: nat, isMap: bool)
    requires 1 <= |remaining| <= MAX_CBOR_NESTING
    ensures var c := ParseContainer(body, items, MAX_CBOR_NESTING - |remaining|, isMap);
            if items >= U64_LIMIT || (items > 0 && |remaining| == MAX_CBOR_NESTING) then c.None?
            else if items == 0 then c.Some? && c.value.rest == body
            else (Accepts(body, remaining + [items]) <==> c.Some? && Accepts(c.value.rest, remaining))
  {
    assert (remaining + [items])[..|remaining|] == remaining;
  }

  method FoldBytes(encoded: seq<byte>) returns (value: nat)
    ensures value == FromBigEndian(encoded)
  {
    value := 0;
    for i := 0 to |encoded|
      invariant value == FromBigEndian(encoded[..i])
    {
      assert encoded[..i + 1][..i] == encoded[..i];
      value := value * 256 + encoded[i] as nat;
    }
    assert encoded[..|encoded|] == encoded;
  }

  /** Reads one argument; the position moves past it even when the argument is then refused. */
  method ReadArgument(payload: seq<byte>, position: nat, additional: nat) returns (r: Result<u64>, next: nat)
    requires 1 <= position <= |payload|
    requires payload[position - 1] as nat % 32 == additional
    ensures r.Ok? <==> ParseHead(payload[position - 1..]).Some?
    ensures r.Err? ==> r.error in {TruncatedFrame, NonCanonicalEncoding}
    ensures r.Ok? ==> var h := ParseHead(payload[position - 1..]).value;
                      r.value == h.arg && next == position - 1 + h.size && position <= next <= |payload|
  {
    var b := payload[position - 1..];
    assert b[0] == payload[position - 1];
    next := position;
    var width := ArgumentWidth(additional);
    if width.None? {
      return Err(NonCanonicalEncoding), next;
    }
    if width.value == 0 {
      return Ok(additional), next;
    }
    var end := position + width.value;
    if end > |payload| {
      return Err(TruncatedFrame), next;
    }
    next := end;
    var encoded := payload[position..end];
    assert encoded == b[1..1 + width.value];
    var value := FoldBytes(encoded);
    BigEndianOfFromBigEndian(encoded);
    if IsShortest(width.value, value) {
      WidthOfShortest(width.value, value);
    }
    if IsShortest(width.value, value) {
      r := Ok(value);
    } else {
      r := Err(NonCanonicalEncoding);
    }
  }

  /** Reads one initial byte and its argument. */
  method ReadHead(payload: seq<byte>, start: nat) returns (r: Result<HeadInfo>, position: nat)
    requires start <= |payload|
    ensures r.Ok? <==> ParseHead(payload[start..]).Some?
    ensures r.Ok? ==> r.value == ParseHead(payload[start..]).value && r.value.major < 8 && r.value.arg < U64_LIMIT
    ensures r.Ok? ==> start < position == start + r.value.size <= |payload|
    ensures r.Err? ==> r.error in {TruncatedFrame, NonCanonicalEncoding}
  {
    position := start;
    if position >= |payload| {
      return Err(TruncatedFrame), position;
    }
    var initial := payload[position] as nat;
    position := position + 1;
    var argument, next := ReadArgument(payload, position, initial % 32);
    if argument.Err? {
      return Err(argument.error), next;
    }
    position := next;
    HeadOfParseHead(payload[start..]);
    r := Ok(HeadInfo(initial / 32, argument.value, position - start));
  }

  /** One turn of the scan loop: consumes one item head and, for strings, its content. */
  method ScanItem(payload: seq<byte>, start: nat, open: seq<nat>)
      returns (r: Result<()>, position: nat, remaining: seq<nat>)
    requires start <= |payload| < U64_LIMIT && 1 <= |open| <= MAX_CBOR_NESTING && open[|open| - 1] > 0
    ensures r.Ok? ==> start < position <= |payload| && |remaining| <= MAX_CBOR_NESTING
    ensures r.Ok? ==> (Accepts(payload[position..], remaining) <==> Accepts(payload[start..], open))
    ensures r.Err? ==> !Accepts(payload[start..], open) && r.error in {TruncatedFrame, NonCanonicalEncoding}
  {
    hide Accepts, ParseItem, ParseItems, ParseContainer, ParseHead, Head;
    var last := |open| - 1;
    remaining := open[last := open[last] - 1];
    ghost var b := payload[start..];
    assert open == open[..last] + [open[last]];
    assert remaining == open[..last] + [open[last] - 1];
    AcceptsItem(b, open, open[..last], open[last]);

    var head;
    head, position := ReadHead(payload, start);
    if head.Err? {
      NoItemWithoutHead(b, MAX_CBOR_NESTING - |open|);
      return Err(head.error), position, remaining;
    }
    var major, value := head.value.major, head.value.arg;
    assert b[head.value.size..] == payload[position..];
    ItemOfHead(b, head.value, MAX_CBOR_NESTING - |open|);

    if major <= 1 {
      r := Ok(());
    } else if major <= 3 {
      var end := position + value;
      if end >= U64_LIMIT {
        return Err(NonCanonicalEncoding), position, remaining;
      }
      if end > |payload| {
        return Err(TruncatedFrame), position, remaining;
      }
      assert payload[position..][value..] == payload[end..];
      position := end;
      r := Ok(());
    } else if major <= 5 {
      var items: nat := value;
      if major == 5 {
        items := 2 * (value as int);
      }
      ScanContainer(payload[position..], remaining, items, major == 5);
      if items >= U64_LIMIT {
        return Err(NonCanonicalEncoding), position, remaining;
      }
      if items > 0 {
        if |remaining| >= MAX_CBOR_NESTING {
          return Err(NonCanonicalEncoding), position, remaining;
        }
        remaining := remaining + [items];
      }
      r := Ok(());
    } else {
      r := Err(NonCanonicalEncoding);
    }
  }

  /**
   * Non-recursive structural pass over a payload (whose length is a machine word). It accepts exactly the
   * payloads that parse; ParseIffEncoding then says which byte strings those are.
   */
  method ValidateStructure(payload: seq<byte>) returns (r: Result<()>)
    requires |payload| < U64_LIMIT
    ensures r.Ok? <==> Parse(payload).Some?
    ensures r.Err? ==> r.error in {TruncatedFrame, NonCanonicalEncoding}
  {
    var position := 0;
    var remaining: seq<nat> := [1];
    RootAccepts(payload);
    assert payload[0..] == payload;

    while remaining != []
      invariant 0 <= position <= |payload|
      invariant |remaining| <= MAX_CBOR_NESTING
      invariant Accepts(payload[position..], remaining) <==> Parse(payload).Some?
      decreases |payload| - position, |remaining|
    {
      while remaining != [] && remaining[|remaining| - 1] == 0
        invariant |remaining| <= MAX_CBOR_NESTING
        invariant Accepts(payload[position..], remaining) <==> Parse(payload).Some?
        decreases |remaining|
      {
        remaining := remaining[..|remaining| - 1];
      }
      if remaining == [] {
        break;
      }
      var item;
      item, position, remaining := ScanItem(payload, position, remaining);
      if item.Err? {
        return item;
      }
    }

    if position == |payload| {
      r := Ok(());
    } else {
      r := Err(NonCanonicalEncoding);
    }
  }

  lemma RootAccepts(payload: seq<byte>)
    ensures Accepts(payload, [1]) <==> Parse(payload).Some?
  {
    AcceptsItem(payload, [1], [], 1);
    var item := ParseItem(payload, MAX_ROOM);
    if item.Some? {
      assert ([] + [0])[..0] == [];
      assert Accepts(item.value.rest, [0]) <==> item.value.rest == [];
    }
  }
}
