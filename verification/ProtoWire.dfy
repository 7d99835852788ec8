/**
 * The protocol buffer wire format, as pure reading and writing functions on
 * byte strings: varints, fixed-width words, zigzag numbers, length-delimited
 * bytes and the skipping of a field nobody knows.
 *
 * A reading function takes the unread bytes and returns what is left of them.
 */
module ProtoWire {
  import opened Wrappers

  const TWO_31: nat := 0x8000_0000
  const TWO_32: nat := 0x1_0000_0000
  const TWO_63: nat := 0x8000_0000_0000_0000
  const TWO_64: nat := 0x1_0000_0000_0000_0000

  const MAX_VARINT_BYTES: nat := 10

  const WIRE_VARINT: nat := 0
  const WIRE_FIXED64: nat := 1
  const WIRE_BYTES: nat := 2
  const WIRE_START_GROUP: nat := 3
  const WIRE_END_GROUP: nat := 4
  const WIRE_FIXED32: nat := 5

  type Word64 = x: int | 0 <= x < TWO_64

  datatype Error =
    | UnexpectedEof
    | Overflow
    | BadLength
    | UnknownWireType
    | EndGroupOutsideGroup
    | IllegalTag
    | BadWireType

  datatype Read<+T> =
    | Ok(value: T, rest: Bytes)
    | Err(error: Error)

  /** `rest` is what is left of `s` after some bytes of it were read. */
  ghost predicate Tail(rest: Bytes, s: Bytes) {
    |rest| <= |s| && rest == s[|s| - |rest|..]
  }

  lemma TailTrans(a: Bytes, b: Bytes, c: Bytes)
    requires Tail(a, b) && Tail(b, c)
    ensures Tail(a, c)
  {
  }

  // ---------------------------------------------------------------- varints

  /** The shortest varint of a number: seven bits a byte, low bits first. */
  function Varint(x: nat): (b: Bytes)
    ensures |b| >= 1
  {
    if x >= 128 then [x % 128 + 128] + Varint(x / 128) else [x]
  }

  /** Varint bytes before the cut to 64 bits, at most `k` of them. */
  function RawVarint(s: Bytes, k: nat): (r: Read<nat>)
    ensures r.Ok? ==> |r.rest| < |s| && Tail(r.rest, s)
    decreases k
  {
    if k == 0 then Err(Overflow)
    else if s == [] then Err(UnexpectedEof)
    else if s[0] < 128 then Ok(s[0], s[1..])
    else
      match RawVarint(s[1..], k - 1)
      case Ok(x, rest) => Ok(s[0] - 128 + 128 * x, rest)
      case Err(e) => Err(e)
  }

  function ReadVarint(s: Bytes): (r: Read<Word64>)
    ensures r.Ok? ==> |r.rest| < |s| && Tail(r.rest, s)
  {
    match RawVarint(s, MAX_VARINT_BYTES)
    case Ok(x, rest) => Ok(x % TWO_64, rest)
    case Err(e) => Err(e)
  }

  function Pow128(k: nat): (p: nat)
    ensures p >= 1
  {
    if k == 0 then 1 else 128 * Pow128(k - 1)
  }

  lemma TenBytesHold64Bits()
    ensures TWO_64 <= Pow128(10)
  {
    assert Pow128(2) == 128 * 128;
    assert Pow128(4) == 128 * 128 * Pow128(2);
    assert Pow128(6) == 128 * 128 * Pow128(4);
    assert Pow128(8) == 128 * 128 * Pow128(6);
    assert Pow128(10) == 128 * 128 * Pow128(8);
  }

  lemma FiveBytesHold32Bits()
    ensures TWO_32 <= Pow128(5)
  {
    assert Pow128(1) == 128;
    assert Pow128(3) == 128 * 128 * Pow128(1);
    assert Pow128(5) == 128 * 128 * Pow128(3);
  }

  lemma {:induction false} RawVarintReads(x: nat, k: nat, t: Bytes)
    requires k > 0 && x < Pow128(k)
    ensures RawVarint(Varint(x) + t, k) == Ok(x, t)
    decreases k
  {
    var s := Varint(x) + t;
    if x < 128 {
      assert s == [x] + t && s[1..] == t;
    } else {
      assert Pow128(1) == 128 * Pow128(0);
      var rest := Varint(x / 128) + t;
      RawVarintReads(x / 128, k - 1, t);
      assert s == [x % 128 + 128] + rest && s[1..] == rest;
    }
  }

  /** Every 64-bit number is read back from its varint. */
  lemma VarintRoundTrip(x: Word64, t: Bytes)
    ensures ReadVarint(Varint(x) + t) == Ok(x, t)
  {
    TenBytesHold64Bits();
    hide RawVarint, Varint, Pow128;
    RawVarintReads(x, MAX_VARINT_BYTES, t);
  }

  /** Bytes that spell one varint: all but the last carry the high bit. */
  ghost predicate IsVarint(b: Bytes) {
    && 1 <= |b| <= MAX_VARINT_BYTES
    && b[|b| - 1] < 128
    && forall i :: 0 <= i < |b| - 1 ==> b[i] >= 128
  }

  ghost function LowBits(b: Byte): nat {
    if b < 128 then b else b - 128
  }

  /** The number those bytes stand for, before it is cut to 64 bits. */
  ghost function VarintValue(b: Bytes): (x: nat) {
    if b == [] then 0 else LowBits(b[0]) + 128 * VarintValue(b[1..])
  }

  lemma {:induction false} RawVarintComplete(b: Bytes, k: nat, t: Bytes)
    requires 1 <= |b| <= k
    requires b[|b| - 1] < 128
    requires forall i :: 0 <= i < |b| - 1 ==> b[i] >= 128
    ensures RawVarint(b + t, k) == Ok(VarintValue(b), t)
    decreases k
  {
    var s := b + t;
    assert s[0] == b[0];
    if |b| == 1 {
      assert s[1..] == t;
      assert VarintValue(b[1..]) == 0;
    } else {
      assert b[0] >= 128;
      var rest := b[1..];
      assert rest[|rest| - 1] == b[|b| - 1];
      assert forall i :: 0 <= i < |rest| - 1 ==> rest[i] == b[i + 1];
      RawVarintComplete(rest, k - 1, t);
      assert s[1..] == rest + t;
    }
  }

  lemma {:induction false} RawVarintSound(s: Bytes, k: nat)
    requires RawVarint(s, k).Ok?
    ensures var r := RawVarint(s, k).rest; var b := s[..|s| - |r|];
      && s == b + r
      && 1 <= |b| <= k
      && b[|b| - 1] < 128
      && (forall i :: 0 <= i < |b| - 1 ==> b[i] >= 128)
    decreases k
  {
    hide RawVarint;
    RawVarintHead(s, k);
    var r := RawVarint(s, k).rest;
    var b := s[..|s| - |r|];
    if s[0] >= 128 {
      RawVarintSound(s[1..], k - 1);
      var c := s[1..][..|s| - 1 - |r|];
      assert b == [s[0]] + c;
      assert forall i :: 0 < i < |b| ==> b[i] == c[i - 1];
    }
  }

  lemma RawVarintHead(s: Bytes, k: nat)
    requires RawVarint(s, k).Ok?
    ensures k > 0 && s != []
    ensures s[0] < 128 ==> RawVarint(s, k).rest == s[1..]
    ensures s[0] >= 128 ==> RawVarint(s[1..], k - 1).Ok? && RawVarint(s, k).rest == RawVarint(s[1..], k - 1).rest
  {
  }

  /** A varint is read exactly when the input starts with one, whatever its length up to ten bytes. */
  lemma VarintReadIff(s: Bytes, x: Word64, r: Bytes)
    ensures ReadVarint(s) == Ok(x, r) <==>
      exists b :: IsVarint(b) && s == b + r && x == VarintValue(b) % TWO_64
  {
    if ReadVarint(s) == Ok(x, r) {
      RawVarintSound(s, MAX_VARINT_BYTES);
      var b := s[..|s| - |r|];
      RawVarintComplete(b, MAX_VARINT_BYTES, r);
      assert IsVarint(b) && s == b + r && x == VarintValue(b) % TWO_64;
    }
    if b :| IsVarint(b) && s == b + r && x == VarintValue(b) % TWO_64 {
      RawVarintComplete(b, MAX_VARINT_BYTES, r);
    }
  }

  lemma {:induction false} VarintLength(x: nat, k: nat)
    requires k > 0 && x < Pow128(k)
    ensures |Varint(x)| <= k
    ensures IsVarint(Varint(x)) || k > MAX_VARINT_BYTES
    decreases k
  {
    if x >= 128 {
      assert Pow128(1) == 128 * Pow128(0);
      VarintLength(x / 128, k - 1);
      var b := Varint(x / 128);
      assert Varint(x) == [x % 128 + 128] + b;
      if k <= MAX_VARINT_BYTES {
        assert forall i :: 1 <= i < |b| ==> Varint(x)[i] == b[i - 1];
      }
    }
  }

  /** The loop of `sizeVarint`: bytes needed, counted by dropping seven bits at a time. */
  method SizeVarint(x0: nat) returns (n: nat)
    ensures n == |Varint(x0)|
  {
    n := 1;
    var x: nat := x0 / 128;
    while x != 0
      invariant n + (if x == 0 then 0 else |Varint(x)|) == |Varint(x0)|
      decreases x
    {
      n := n + 1;
      x := x / 128;
    }
  }

  // ---------------------------------------------------------------- fixed-width words

  /** `k` bytes of a number, low byte first. */
  function Fixed(x: nat, k: nat): (b: Bytes)
    ensures |b| == k
  {
    if k == 0 then [] else [x % 256] + Fixed(x / 256, k - 1)
  }

  function FixedValue(b: Bytes): (x: nat) {
    if b == [] then 0 else b[0] + 256 * FixedValue(b[1..])
  }

  function ReadFixed(s: Bytes, k: nat): (r: Read<nat>)
    ensures r.Ok? ==> |r.rest| + k == |s| && Tail(r.rest, s)
  {
    if |s| < k then Err(UnexpectedEof) else Ok(FixedValue(s[..k]), s[k..])
  }

  function Pow256(k: nat): (p: nat)
    ensures p >= 1
  {
    if k == 0 then 1 else 256 * Pow256(k - 1)
  }

  lemma {:induction false} FixedKeepsLow(x: nat, k: nat)
    ensures FixedValue(Fixed(x, k)) < Pow256(k)
    ensures x < Pow256(k) ==> FixedValue(Fixed(x, k)) == x
    decreases k
  {
    if k > 0 {
      FixedKeepsLow(x / 256, k - 1);
      assert Fixed(x, k)[1..] == Fixed(x / 256, k - 1);
    }
  }

  lemma FixedSizes()
    ensures Pow256(4) == TWO_32 && Pow256(8) == TWO_64
  {
    assert Pow256(2) == 256 * 256;
    assert Pow256(4) == 256 * 256 * Pow256(2);
    assert Pow256(6) == 256 * 256 * Pow256(4);
    assert Pow256(8) == 256 * 256 * Pow256(6);
  }

  lemma {:induction false} FixedValueBound(b: Bytes)
    ensures FixedValue(b) < Pow256(|b|)
    decreases |b|
  {
    if b != [] {
      FixedValueBound(b[1..]);
    }
  }

  lemma FixedRoundTrip(x: nat, k: nat, t: Bytes)
    requires x < Pow256(k)
    ensures ReadFixed(Fixed(x, k) + t, k) == Ok(x, t)
  {
    FixedKeepsLow(x, k);
    assert (Fixed(x, k) + t)[..k] == Fixed(x, k);
    assert (Fixed(x, k) + t)[k..] == t;
  }

  // ---------------------------------------------------------------- zigzag

  /** Reading a word of `2 * half` values as a two's complement number. */
  ghost function Signed(x: nat, half: nat): int {
    if x < half then x else x - 2 * half
  }

  /**
   * Shift left by one, then exclusive-or with the sign bit spread over the
   * word: with the spread sign all ones the exclusive-or is the complement.
   */
  function Zigzag(x: nat, half: nat): (z: nat)
    requires 0 < half && x < 2 * half
    ensures z < 2 * half
  {
    var shifted := if x >= half then 2 * x - 2 * half else 2 * x;
    if x >= half then 2 * half - 1 - shifted else shifted
  }

  /** Shift right by one, then exclusive-or with the low bit spread over the word. */
  function Unzigzag(z: nat, half: nat): (x: nat)
    requires 0 < half && z < 2 * half
    ensures x < 2 * half
  {
    if z % 2 == 1 then 2 * half - 1 - z / 2 else z / 2
  }

  /** Small magnitudes get small codes: 0, -1, 1, -2, ... become 0, 1, 2, 3, ..., in both directions. */
  lemma ZigzagMeaning(x: nat, z: nat, half: nat)
    requires 0 < half && x < 2 * half && z < 2 * half
    ensures var v := Signed(x, half); Zigzag(x, half) == if v >= 0 then 2 * v else -2 * v - 1
    ensures Unzigzag(Zigzag(x, half), half) == x
    ensures Zigzag(Unzigzag(z, half), half) == z
  {
    assert (2 * x) / 2 == x;
    if x >= half {
      var c := 2 * half - 1 - (2 * x - 2 * half);
      assert c == 2 * (2 * half - 1 - x) + 1;
      assert c / 2 == 2 * half - 1 - x;
    }
    var q := z / 2;
    assert z == 2 * q + z % 2;
  }

  // ---------------------------------------------------------------- length-delimited bytes

  function Delimited(b: Bytes): (e: Bytes)
    ensures |e| > |b|
  {
    Varint(|b|) + b
  }

  function ReadDelimited(s: Bytes): (r: Read<Bytes>)
    ensures r.Ok? ==> |r.rest| + |r.value| < |s| && Tail(r.rest, s)
  {
    match ReadVarint(s)
    case Err(e) => Err(e)
    case Ok(n, rest) =>
      if n >= TWO_63 then Err(BadLength)
      else if n > |rest| then Err(UnexpectedEof)
      else Ok(rest[..n], rest[n..])
  }

  lemma DelimitedRoundTrip(b: Bytes, t: Bytes)
    requires |b| < TWO_63
    ensures ReadDelimited(Delimited(b) + t) == Ok(b, t)
  {
    assert Delimited(b) + t == Varint(|b|) + (b + t);
    VarintRoundTrip(|b|, b + t);
    assert (b + t)[..|b|] == b && (b + t)[|b|..] == t;
  }

  // ---------------------------------------------------------------- skipping

  /** Moves past one payload of the given wire type. */
  function Skip(s: Bytes, wire: nat): (r: Read<()>)
    ensures r.Ok? ==> |r.rest| < |s| && Tail(r.rest, s)
    decreases |s|, 1
  {
    if wire == WIRE_VARINT then
      match ReadVarint(s) case Ok(_, rest) => Ok((), rest) case Err(e) => Err(e)
    else if wire == WIRE_FIXED64 then
      match ReadFixed(s, 8) case Ok(_, rest) => Ok((), rest) case Err(e) => Err(e)
    else if wire == WIRE_BYTES then
      match ReadDelimited(s) case Ok(_, rest) => Ok((), rest) case Err(e) => Err(e)
    else if wire == WIRE_FIXED32 then
      match ReadFixed(s, 4) case Ok(_, rest) => Ok((), rest) case Err(e) => Err(e)
    else if wire == WIRE_START_GROUP then SkipGroup(s)
    else Err(UnknownWireType)
  }

  /** Moves past fields until one has the end-group wire type; its tag number is not compared. */
  function SkipGroup(s: Bytes): (r: Read<()>)
    ensures r.Ok? ==> |r.rest| < |s| && Tail(r.rest, s)
    decreases |s|, 0
  {
    match ReadVarint(s)
    case Err(e) => Err(e)
    case Ok(u, rest) =>
      if u % 8 == WIRE_END_GROUP then Ok((), rest)
      else
        match Skip(rest, u % 8)
        case Err(e) => Err(e)
        case Ok(_, after) => SkipGroup(after)
  }

  /** A well-formed payload as a tree, with the very bytes it was spelt in. */
  datatype Payload =
    | VarintPayload(b: Bytes)
    | EightBytes(b: Bytes)
    | Counted(count: Bytes, body: Bytes)
    | FourBytes(b: Bytes)
    | GroupPayload(items: Items)

  datatype Items =
    | EndItem(tag: Bytes)
    | MoreItems(tag: Bytes, payload: Payload, rest: Items)

  ghost function WireOf(p: Payload): nat {
    match p
    case VarintPayload(_) => WIRE_VARINT
    case EightBytes(_) => WIRE_FIXED64
    case Counted(_, _) => WIRE_BYTES
    case FourBytes(_) => WIRE_FIXED32
    case GroupPayload(_) => WIRE_START_GROUP
  }

  ghost predicate WellFormed(p: Payload) {
    match p
    case VarintPayload(b) => IsVarint(b)
    case EightBytes(b) => |b| == 8
    case Counted(count, body) =>
      IsVarint(count) && VarintValue(count) % TWO_64 == |body| && |body| < TWO_63
    case FourBytes(b) => |b| == 4
    case GroupPayload(items) => WellFormedItems(items)
  }

  ghost predicate WellFormedItems(items: Items) {
    match items
    case EndItem(tag) => IsVarint(tag) && VarintValue(tag) % TWO_64 % 8 == WIRE_END_GROUP
    case MoreItems(tag, payload, rest) =>
      && IsVarint(tag)
      && VarintValue(tag) % TWO_64 % 8 == WireOf(payload)
      && WellFormed(payload)
      && WellFormedItems(rest)
  }

  ghost function Flatten(p: Payload): Bytes {
    match p
    case VarintPayload(b) => b
    case EightBytes(b) => b
    case Counted(count, body) => count + body
    case FourBytes(b) => b
    case GroupPayload(items) => FlattenItems(items)
  }

  ghost function FlattenItems(items: Items): Bytes {
    match items
    case EndItem(tag) => tag
    case MoreItems(tag, payload, rest) => tag + Flatten(payload) + FlattenItems(rest)
  }

  lemma ReadsSpelling(b: Bytes, t: Bytes)
    requires IsVarint(b)
    ensures ReadVarint(b + t) == Ok(VarintValue(b) % TWO_64, t)
  {
    RawVarintComplete(b, MAX_VARINT_BYTES, t);
  }

  lemma {:induction false} SkipComplete(p: Payload, t: Bytes)
    requires WellFormed(p)
    ensures Skip(Flatten(p) + t, WireOf(p)) == Ok((), t)
    decreases p
  {
    hide ReadVarint, IsVarint, VarintValue, RawVarint;
    match p
    case VarintPayload(b) => ReadsSpelling(b, t);
    case EightBytes(b) => assert (b + t)[8..] == t;
    case Counted(count, body) =>
      assert count + body + t == count + (body + t);
      ReadsSpelling(count, body + t);
      assert (body + t)[|body|..] == t;
    case FourBytes(b) => assert (b + t)[4..] == t;
    case GroupPayload(items) => SkipItemsComplete(items, t);
  }

  lemma {:induction false} SkipItemsComplete(items: Items, t: Bytes)
    requires WellFormedItems(items)
    ensures SkipGroup(FlattenItems(items) + t) == Ok((), t)
    decreases items
  {
    hide ReadVarint, IsVarint, VarintValue, RawVarint;
    match items
    case EndItem(tag) => ReadsSpelling(tag, t);
    case MoreItems(tag, payload, rest) =>
      var after := FlattenItems(rest) + t;
      assert FlattenItems(items) + t == tag + (Flatten(payload) + after);
      ReadsSpelling(tag, Flatten(payload) + after);
      SkipComplete(payload, after);
      SkipItemsComplete(rest, t);
  }

  lemma VarintSpelling(s: Bytes) returns (b: Bytes)
    requires ReadVarint(s).Ok?
    ensures IsVarint(b) && s == b + ReadVarint(s).rest
    ensures ReadVarint(s).value == VarintValue(b) % TWO_64
  {
    hide ReadVarint, IsVarint, VarintValue, RawVarint;
    var r := ReadVarint(s);
    VarintReadIff(s, r.value, r.rest);
    b :| IsVarint(b) && s == b + r.rest && r.value == VarintValue(b) % TWO_64;
  }

  lemma {:induction false} SkipSound(s: Bytes, wire: nat) returns (p: Payload)
    requires Skip(s, wire).Ok?
    ensures WellFormed(p) && WireOf(p) == wire
    ensures s == Flatten(p) + Skip(s, wire).rest
    decreases |s|, 1
  {
    hide ReadVarint, IsVarint, VarintValue, RawVarint, SkipGroup, FixedValue, Tail, FlattenItems, WellFormedItems;
    if wire == WIRE_VARINT {
      var b := VarintSpelling(s);
      p := VarintPayload(b);
    } else if wire == WIRE_FIXED64 {
      p := EightBytes(s[..8]);
    } else if wire == WIRE_BYTES {
      var count := VarintSpelling(s);
      var rest := ReadVarint(s).rest;
      var n := ReadVarint(s).value;
      p := Counted(count, rest[..n]);
      assert rest == rest[..n] + rest[n..];
    } else if wire == WIRE_FIXED32 {
      p := FourBytes(s[..4]);
    } else {
      var items := SkipItemsSound(s);
      p := GroupPayload(items);
    }
  }

  lemma {:induction false} SkipItemsSound(s: Bytes) returns (items: Items)
    requires SkipGroup(s).Ok?
    ensures WellFormedItems(items)
    ensures s == FlattenItems(items) + SkipGroup(s).rest
    decreases |s|, 0
  {
    hide ReadVarint, IsVarint, VarintValue, RawVarint, Skip, Tail, Flatten, WellFormed;
    var tag := VarintSpelling(s);
    var u, rest := ReadVarint(s).value, ReadVarint(s).rest;
    if u % 8 == WIRE_END_GROUP {
      items := EndItem(tag);
    } else {
      var payload := SkipSound(rest, u % 8);
      var more := SkipItemsSound(Skip(rest, u % 8).rest);
      items := MoreItems(tag, payload, more);
      var after := SkipGroup(s).rest;
      assert s == tag + (Flatten(payload) + (FlattenItems(more) + after));
    }
  }

  /** Skipping succeeds exactly on one well-formed payload at any nesting, and stops right after it. */
  lemma SkipIff(s: Bytes, wire: nat, r: Bytes)
    ensures Skip(s, wire) == Ok((), r) <==>
      exists p :: WellFormed(p) && WireOf(p) == wire && s == Flatten(p) + r
  {
    if Skip(s, wire) == Ok((), r) {
      var p := SkipSound(s, wire);
    }
    if p :| WellFormed(p) && WireOf(p) == wire && s == Flatten(p) + r {
      SkipComplete(p, r);
    }
  }

  // ---------------------------------------------------------------- saving unknown fields

  /** What is appended to a message's unknown bytes: the tag written afresh, then the payload as it stood. */
  function Saved(u: nat, after: Bytes, rest: Bytes): (saved: Bytes)
    requires |rest| <= |after|
  {
    Varint(u) + after[..|after| - |rest|]
  }

  /** The saved bytes are the field's own bytes exactly when its tag was spelt in the shortest way. */
  lemma SavedIsOriginalIff(s: Bytes)
    requires ReadVarint(s).Ok?
    requires Skip(ReadVarint(s).rest, ReadVarint(s).value % 8).Ok?
    ensures var u := ReadVarint(s).value;
      var after := ReadVarint(s).rest;
      var rest := Skip(after, u % 8).rest;
      Saved(u, after, rest) == s[..|s| - |rest|] <==> s[..|s| - |after|] == Varint(u)
  {
    hide ReadVarint, Varint, Skip;
    var u := ReadVarint(s).value;
    var after := ReadVarint(s).rest;
    var rest := Skip(after, u % 8).rest;
    TailTrans(rest, after, s);
    var tag, payload := s[..|s| - |after|], after[..|after| - |rest|];
    assert s[..|s| - |rest|] == tag + payload;
    if Varint(u) + payload == tag + payload {
      assert |Varint(u)| == |tag|;
      assert (Varint(u) + payload)[..|tag|] == Varint(u);
      assert (tag + payload)[..|tag|] == tag;
    }
  }
}
