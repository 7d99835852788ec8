/**
 * Messages and their encoding, as functions of the message descriptors.
 *
 * A message is one slot per field of its descriptor, in tag order, and the
 * bytes of the fields its descriptor does not know. A slot holds the values
 * that are set: none or one for a singular field, any number for a repeated
 * one. A field with implicit presence holds nothing when its value is zero.
 */
module ProtoMessage {
  import opened Wrappers
  import opened ProtoWire

  /** The in-memory word of a scalar, which fixes how it becomes 64 bits. */
  datatype Word = Bool | Int32 | Uint32 | Int64

  /** How 64 bits go on the wire. */
  datatype Coder = AsVarint | AsFixed32 | AsFixed64 | AsZigzag32 | AsZigzag64

  datatype Type =
    | Scalar(word: Word, coder: Coder)
    | Text
    | Message(id: nat)
    | Group(id: nat)

  datatype Label = Optional | Required | Repeated | Packed | Implicit

  datatype Field = Field(tag: nat, mode: Label, typ: Type)

  datatype Descriptor = Descriptor(fields: seq<Field>, keepsUnknown: bool)

  type Schema = seq<Descriptor>

  datatype Value =
    | Num(n: nat)
    | Data(b: Bytes)
    | Sub(m: Msg)

  datatype Slot = Slot(values: seq<Value>)

  datatype Msg = Msg(slots: seq<Slot>, unknown: Bytes)

  const MAX_TAG: nat := 0x1FFF_FFFF

  // ---------------------------------------------------------------- descriptors

  /** The coder keeps every value of the word, and a boolean takes one byte. */
  predicate Keeps(coder: Coder, word: Word) {
    match word
    case Bool => !coder.AsFixed32? && !coder.AsFixed64?
    case Int64 => !coder.AsFixed32? && !coder.AsZigzag32?
    case _ => true
  }

  predicate GoodField(count: nat, f: Field) {
    && 1 <= f.tag <= MAX_TAG
    && (f.mode.Packed? ==> f.typ.Scalar?)
    && (f.mode.Implicit? ==> f.typ.Scalar? || f.typ.Text?)
    && match f.typ
       case Scalar(word, coder) => Keeps(coder, word)
       case Text => true
       case Message(id) => id < count
       case Group(id) => id < count
  }

  predicate GoodDescriptor(count: nat, d: Descriptor) {
    && (forall i :: 0 <= i < |d.fields| ==> GoodField(count, d.fields[i]))
    && (forall i, j :: 0 <= i < j < |d.fields| ==> d.fields[i].tag < d.fields[j].tag)
  }

  predicate GoodSchema(S: Schema) {
    forall t :: 0 <= t < |S| ==> GoodDescriptor(|S|, S[t])
  }

  function WireType(typ: Type): (w: nat)
    ensures w < 8
  {
    match typ
    case Scalar(_, AsVarint) => WIRE_VARINT
    case Scalar(_, AsFixed32) => WIRE_FIXED32
    case Scalar(_, AsFixed64) => WIRE_FIXED64
    case Scalar(_, AsZigzag32) => WIRE_VARINT
    case Scalar(_, AsZigzag64) => WIRE_VARINT
    case _ => WIRE_BYTES
  }

  /** The index of the field with that tag. */
  function FindField(fields: seq<Field>, tag: nat, from: nat): (i: Option<nat>)
    requires from <= |fields|
    ensures i.Some? ==> from <= i.value < |fields| && fields[i.value].tag == tag
    ensures i.None? ==> forall k :: from <= k < |fields| ==> fields[k].tag != tag
    decreases |fields| - from
  {
    if from == |fields| then None
    else if fields[from].tag == tag then Some(from)
    else FindField(fields, tag, from + 1)
  }

  // ---------------------------------------------------------------- scalars

  predicate InRange(word: Word, n: nat) {
    match word
    case Bool => n < 2
    case Int32 => n < TWO_32
    case Uint32 => n < TWO_32
    case Int64 => n < TWO_64
  }

  /** A word widened to 64 bits; a signed 32-bit word is sign-extended. */
  function Widen(word: Word, n: nat): (u: Word64)
    requires InRange(word, n)
  {
    if word.Int32? && n >= TWO_31 then n + (TWO_64 - TWO_32) else n
  }

  function Narrow(word: Word, u: Word64): (n: nat)
    ensures InRange(word, n)
  {
    match word
    case Bool => if u != 0 then 1 else 0
    case Int32 => u % TWO_32
    case Uint32 => u % TWO_32
    case Int64 => u
  }

  function WriteScalar(coder: Coder, u: Word64): (b: Bytes) {
    match coder
    case AsVarint => Varint(u)
    case AsFixed32 => Fixed(u, 4)
    case AsFixed64 => Fixed(u, 8)
    case AsZigzag32 => Varint(Zigzag(u % TWO_32, TWO_31))
    case AsZigzag64 => Varint(Zigzag(u, TWO_63))
  }

  function ReadWord(s: Bytes, k: nat): (r: Read<Word64>)
    requires k == 4 || k == 8
    ensures r.Ok? ==> |r.rest| < |s| && Tail(r.rest, s)
  {
    match ReadFixed(s, k)
    case Err(e) => Err(e)
    case Ok(x, rest) =>
      FixedSizes();
      FixedValueBound(s[..k]);
      Ok(x, rest)
  }

  function ReadScalar(coder: Coder, s: Bytes): (r: Read<Word64>)
    ensures r.Ok? ==> |r.rest| < |s| && Tail(r.rest, s)
  {
    match coder
    case AsVarint => ReadVarint(s)
    case AsFixed32 => ReadWord(s, 4)
    case AsFixed64 => ReadWord(s, 8)
    case AsZigzag32 =>
      (match ReadVarint(s)
       case Ok(x, rest) => Ok(Unzigzag(x % TWO_32, TWO_31), rest)
       case Err(e) => Err(e))
    case AsZigzag64 =>
      match ReadVarint(s)
      case Ok(x, rest) => Ok(Unzigzag(x, TWO_63), rest)
      case Err(e) => Err(e)
  }

  /** Four bytes of a sign-extended word are the four bytes of the word. */
  lemma FixedIgnoresSign(n: nat)
    requires n < TWO_32
    ensures Fixed(n + (TWO_64 - TWO_32), 4) == Fixed(n, 4)
  {
    var a := n + (TWO_64 - TWO_32);
    assert a % 256 == n % 256 && a / 256 == n / 256 + 0xFF_FFFF_FF00_0000;
    assert a / 256 % 256 == n / 256 % 256 && a / 256 / 256 == n / 256 / 256 + 0xFFFF_FFFF_0000;
    var b, c := a / 256 / 256, n / 256 / 256;
    assert b % 256 == c % 256 && b / 256 == c / 256 + 0xFF_FFFF_FF00;
    assert b / 256 % 256 == c / 256 % 256;
    assert Fixed(a, 4) == [a % 256] + Fixed(a / 256, 3);
    assert Fixed(n, 4) == [n % 256] + Fixed(n / 256, 3);
    assert Fixed(a / 256, 3) == [a / 256 % 256] + Fixed(b, 2);
    assert Fixed(n / 256, 3) == [n / 256 % 256] + Fixed(c, 2);
    assert Fixed(b, 2) == [b % 256] + ([b / 256 % 256] + Fixed(b / 256 / 256, 0));
    assert Fixed(c, 2) == [c % 256] + ([c / 256 % 256] + Fixed(c / 256 / 256, 0));
  }

  lemma WidenLow(word: Word, n: nat)
    requires InRange(word, n)
    ensures Narrow(word, Widen(word, n)) == n
    ensures !word.Int64? ==> Widen(word, n) as nat % TWO_32 == n
  {
  }

  /** A scalar comes back from the wire through any coder that keeps its word. */
  lemma ScalarRoundTrip(word: Word, coder: Coder, n: nat, t: Bytes)
    requires InRange(word, n) && Keeps(coder, word)
    ensures var r := ReadScalar(coder, WriteScalar(coder, Widen(word, n)) + t);
      r.Ok? && r.rest == t && Narrow(word, r.value) == n
  {
    hide ReadVarint, Varint, Fixed, FixedValue, ReadFixed, Zigzag, Unzigzag;
    WidenLow(word, n);
    var u := Widen(word, n);
    match coder
    case AsVarint => VarintRoundTrip(u, t);
    case AsFixed32 =>
      FixedSizes();
      if word.Int32? && n >= TWO_31 { FixedIgnoresSign(n); }
      FixedRoundTrip(n, 4, t);
    case AsFixed64 =>
      FixedSizes();
      FixedRoundTrip(u, 8, t);
    case AsZigzag32 =>
      ZigzagMeaning(n, 0, TWO_31);
      VarintRoundTrip(Zigzag(n, TWO_31), t);
    case AsZigzag64 =>
      ZigzagMeaning(u, 0, TWO_63);
      VarintRoundTrip(Zigzag(u, TWO_63), t);
  }

  lemma BoolTakesOneByte(coder: Coder, n: nat)
    requires n < 2 && Keeps(coder, Bool)
    ensures |WriteScalar(coder, Widen(Bool, n))| == 1
  {
  }

  // ---------------------------------------------------------------- well-shaped messages

  predicate IsZero(v: Value) {
    match v
    case Num(n) => n == 0
    case Data(b) => b == []
    case Sub(_) => false
  }

  predicate Fits(mode: Label, values: seq<Value>) {
    match mode
    case Repeated => true
    case Packed => true
    case Implicit => |values| <= 1 && (|values| == 1 ==> !IsZero(values[0]))
    case _ => |values| <= 1
  }

  /** Fields the descriptor does not know, each with its tag spelt in the shortest way. */
  predicate UnknownFields(fields: seq<Field>, b: Bytes)
    decreases |b|
  {
    b == [] ||
    match ReadVarint(b)
    case Err(_) => false
    case Ok(u, rest) =>
      && b == Varint(u) + rest
      && u / 8 > 0
      && FindField(fields, u / 8, 0).None?
      && u % 8 != WIRE_END_GROUP
      && match Skip(rest, u % 8)
         case Err(_) => false
         case Ok(_, after) => UnknownFields(fields, after)
  }

  predicate UnknownFit(d: Descriptor, b: Bytes) {
    if d.keepsUnknown then UnknownFields(d.fields, b) else b == []
  }

  predicate ShapedValue(S: Schema, typ: Type, v: Value)
    decreases v
  {
    match typ
    case Scalar(word, _) => v.Num? && InRange(word, v.n)
    case Text => v.Data?
    case Message(id) => v.Sub? && Shaped(S, id, v.m)
    case Group(id) => v.Sub? && Shaped(S, id, v.m)
  }

  predicate ShapedSlot(S: Schema, f: Field, slot: Slot)
    decreases slot
  {
    && Fits(f.mode, slot.values)
    && forall j :: 0 <= j < |slot.values| ==> ShapedValue(S, f.typ, slot.values[j])
  }

  /** The message is a value of the `t`-th message type; required fields may be unset. */
  predicate Shaped(S: Schema, t: nat, m: Msg)
    decreases m
  {
    && t < |S|
    && |m.slots| == |S[t].fields|
    && UnknownFit(S[t], m.unknown)
    && forall i :: 0 <= i < |m.slots| ==> ShapedSlot(S, S[t].fields[i], m.slots[i])
  }

  lemma TypeKnown(S: Schema, t: nat, m: Msg)
    requires Shaped(S, t, m)
    ensures t < |S| && |m.slots| == |S[t].fields|
  {
  }

  lemma ShapedAt(S: Schema, t: nat, m: Msg, i: nat)
    requires GoodSchema(S) && Shaped(S, t, m) && i < |m.slots|
    ensures GoodField(|S|, S[t].fields[i]) && ShapedSlot(S, S[t].fields[i], m.slots[i])
    ensures GoodDescriptor(|S|, S[t])
  {
  }

  function Empty(S: Schema, t: nat): (m: Msg)
    requires t < |S|
    ensures Shaped(S, t, m)
  {
    Msg(seq(|S[t].fields|, _ => Slot([])), [])
  }

  // ---------------------------------------------------------------- encoding

  function Tagged(tag: nat, wire: nat): (b: Bytes)
    ensures |b| >= 1
  {
    Varint(tag * 8 + wire)
  }

  function EncodeValue(S: Schema, f: Field, v: Value): (b: Bytes)
    requires GoodSchema(S) && ShapedValue(S, f.typ, v)
    decreases v
  {
    match f.typ
    case Scalar(word, coder) => Tagged(f.tag, WireType(f.typ)) + WriteScalar(coder, Widen(word, v.n))
    case Text => Tagged(f.tag, WIRE_BYTES) + Delimited(v.b)
    case Message(id) => Tagged(f.tag, WIRE_BYTES) + Delimited(Encode(S, id, v.m))
    case Group(id) =>
      Tagged(f.tag, WIRE_START_GROUP) + Encode(S, id, v.m) + Tagged(f.tag, WIRE_END_GROUP)
  }

  function EncodeValues(S: Schema, f: Field, slot: Slot, j: nat): (b: Bytes)
    requires GoodSchema(S) && ShapedSlot(S, f, slot) && j <= |slot.values|
    decreases slot, |slot.values| - j
  {
    if j == |slot.values| then []
    else EncodeValue(S, f, slot.values[j]) + EncodeValues(S, f, slot, j + 1)
  }

  function PackedBody(word: Word, coder: Coder, values: seq<Value>, j: nat): (b: Bytes)
    requires j <= |values|
    requires forall k :: 0 <= k < |values| ==> values[k].Num? && InRange(word, values[k].n)
    decreases |values| - j
  {
    if j == |values| then []
    else WriteScalar(coder, Widen(word, values[j].n)) + PackedBody(word, coder, values, j + 1)
  }

  function EncodeSlot(S: Schema, f: Field, slot: Slot): (b: Bytes)
    requires GoodSchema(S) && GoodField(|S|, f) && ShapedSlot(S, f, slot)
    decreases slot, |slot.values| + 1
  {
    if f.mode.Packed? then
      if slot.values == [] then []
      else
        assert forall k :: 0 <= k < |slot.values| ==> ShapedValue(S, f.typ, slot.values[k]);
        Tagged(f.tag, WIRE_BYTES) + Delimited(PackedBody(f.typ.word, f.typ.coder, slot.values, 0))
    else EncodeValues(S, f, slot, 0)
  }

  function EncodeSlots(S: Schema, t: nat, m: Msg, i: nat): (b: Bytes)
    requires GoodSchema(S) && Shaped(S, t, m) && i <= |m.slots|
    decreases m, |m.slots| - i
  {
    if i == |m.slots| then []
    else EncodeSlot(S, S[t].fields[i], m.slots[i]) + EncodeSlots(S, t, m, i + 1)
  }

  function Encode(S: Schema, t: nat, m: Msg): (b: Bytes)
    requires GoodSchema(S) && Shaped(S, t, m)
    decreases m, |m.slots| + 1
  {
    EncodeSlots(S, t, m, 0) + m.unknown
  }

  lemma {:induction false} BoolBody(coder: Coder, values: seq<Value>, j: nat)
    requires j <= |values| && Keeps(coder, Bool)
    requires forall k :: 0 <= k < |values| ==> values[k].Num? && InRange(Bool, values[k].n)
    ensures |PackedBody(Bool, coder, values, j)| == |values| - j
    decreases |values| - j
  {
    hide WriteScalar;
    if j < |values| {
      BoolTakesOneByte(coder, values[j].n);
      BoolBody(coder, values, j + 1);
    }
  }

  /** A required field is unset anywhere in the message, groups included. */
  predicate Incomplete(S: Schema, t: nat, m: Msg)
    decreases m
  {
    && t < |S| && |m.slots| == |S[t].fields|
    && exists i :: 0 <= i < |m.slots| && IncompleteSlot(S, S[t].fields[i], m.slots[i])
  }

  predicate IncompleteSlot(S: Schema, f: Field, slot: Slot)
    decreases slot
  {
    || (f.mode.Required? && slot.values == [])
    || exists j :: 0 <= j < |slot.values| && IncompleteValue(S, f.typ, slot.values[j])
  }

  predicate IncompleteValue(S: Schema, typ: Type, v: Value)
    decreases v
  {
    (typ.Message? || typ.Group?) && v.Sub? && Incomplete(S, typ.id, v.m)
  }
}
