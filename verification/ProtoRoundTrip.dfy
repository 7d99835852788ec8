/**
 * Decoding the encoding of a message into an empty one gives the message
 * back, whatever its nesting, its repeated and packed fields and its unknown
 * bytes. A required field that is unset is reported exactly when it lies
 * outside every group.
 */
module ProtoRoundTrip {
  import opened Wrappers
  import opened ProtoWire
  import opened ProtoMessage
  import opened ProtoDecode

  // ---------------------------------------------------------------- what the decoder reports

  predicate MissingValue(S: Schema, typ: Type, v: Value)
    decreases v
  {
    typ.Message? && v.Sub? && Missing(S, typ.id, v.m)
  }

  predicate NestedMissing(S: Schema, f: Field, slot: Slot, from: nat)
    decreases slot
  {
    exists j :: from <= j < |slot.values| && MissingValue(S, f.typ, slot.values[j])
  }

  predicate Unset(f: Field, slot: Slot) {
    f.mode.Required? && slot.values == []
  }

  /** A required field is unset here or in a nested message reached without entering a group. */
  predicate Missing(S: Schema, t: nat, m: Msg)
    decreases m
  {
    && t < |S| && |m.slots| == |S[t].fields|
    && exists i :: 0 <= i < |m.slots|
         && (Unset(S[t].fields[i], m.slots[i]) || NestedMissing(S, S[t].fields[i], m.slots[i], 0))
  }

  // ---------------------------------------------------------------- one step of the decoder

  lemma FindUnique(count: nat, d: Descriptor, i: nat)
    requires GoodDescriptor(count, d) && i < |d.fields|
    ensures FindField(d.fields, d.fields[i].tag, 0) == Some(i)
  {
    var r := FindField(d.fields, d.fields[i].tag, 0);
    assert forall j, k :: 0 <= j < |d.fields| && 0 <= k < |d.fields| && d.fields[j].tag == d.fields[k].tag ==> j == k;
  }

  function AfterSlot(S: Schema, t: nat, g: bool, m: Msg, p: Progress, i: nat, o: SlotRead): Outcome
    requires GoodSchema(S) && Shaped(S, t, m) && i < |m.slots|
    requires o.Got? ==> ShapedSlot(S, S[t].fields[i], o.slot)
  {
    match o
    case Failed(e) => Fail(e)
    case Got(slot, missing, after) =>
      Unmarshal(S, t, g, Put(S, t, m, i, slot), Tally(p, S[t].fields[i], missing), after)
  }

  lemma KnownStep(S: Schema, t: nat, g: bool, m: Msg, p: Progress, i: nat, wire: nat, rest: Bytes)
    requires GoodSchema(S) && Shaped(S, t, m) && i < |m.slots|
    requires wire < 8 && wire != WIRE_END_GROUP
    ensures var f := S[t].fields[i];
      Unmarshal(S, t, g, m, p, Tagged(f.tag, wire) + rest)
      == AfterSlot(S, t, g, m, p, i, DecodeSlot(S, f, m.slots[i], wire, rest))
  {
    hide ReadVarint, Varint, Skip, DecodeSlot, FindField, ShapedSlot, Tally;
    var f := S[t].fields[i];
    assert GoodDescriptor(|S|, S[t]);
    var u := f.tag * 8 + wire;
    VarintRoundTrip(u, rest);
    assert u / 8 == f.tag && u % 8 == wire;
    FindUnique(|S|, S[t], i);
  }

  lemma EndStep(S: Schema, t: nat, m: Msg, p: Progress, tag: nat, rest: Bytes)
    requires GoodSchema(S) && Shaped(S, t, m) && tag <= MAX_TAG
    ensures Unmarshal(S, t, true, m, p, Tagged(tag, WIRE_END_GROUP) + rest) == Done(m, false, rest)
  {
    hide ReadVarint, Varint, Skip, DecodeSlot, FindField, ShapedSlot, Tally, Shaped, GoodSchema, Tail;
    VarintRoundTrip(tag * 8 + WIRE_END_GROUP, rest);
  }

  // ---------------------------------------------------------------- unknown bytes

  lemma {:induction false} UnknownReads(S: Schema, t: nat, g: bool, m: Msg, p: Progress, b: Bytes, tail: Bytes)
    requires GoodSchema(S) && Shaped(S, t, m)
    requires S[t].keepsUnknown && UnknownFields(S[t].fields, b)
    ensures Shaped(S, t, m.(unknown := m.unknown + b))
    ensures Unmarshal(S, t, g, m, p, b + tail) == Unmarshal(S, t, g, m.(unknown := m.unknown + b), p, tail)
    decreases |b|
  {
    hide ReadVarint, Varint, Skip, FindField, DecodeSlot, Unmarshal, Shaped, UnknownFields, GoodSchema, Tail;
    TypeKnown(S, t, m);
    UnknownExtends(S, t, m, b);
    if b == [] {
      assert b + tail == tail && m.unknown + b == m.unknown;
    } else {
      UnknownFirst(S[t].fields, b);
      var u, rest := ReadVarint(b).value, ReadVarint(b).rest;
      var after := Skip(rest, u % 8).rest;
      UnknownStep(S, t, g, m, p, u, rest, tail);
      var saved := Saved(u, rest, after);
      var next := m.(unknown := m.unknown + saved);
      assert m.unknown + (saved + after) == next.unknown + after;
      UnknownReads(S, t, g, next, p, after, tail);
    }
  }

  ghost predicate UnknownHead(fields: seq<Field>, b: Bytes) {
    && ReadVarint(b).Ok?
    && var u, rest := ReadVarint(b).value, ReadVarint(b).rest;
    && b == Varint(u) + rest
    && u / 8 > 0
    && FindField(fields, u / 8, 0).None?
    && u % 8 != WIRE_END_GROUP
    && Skip(rest, u % 8).Ok?
    && UnknownFields(fields, Skip(rest, u % 8).rest)
  }

  lemma UnknownFirst(fields: seq<Field>, b: Bytes)
    requires UnknownFields(fields, b) && b != []
    ensures UnknownHead(fields, b)
    ensures var u, rest := ReadVarint(b).value, ReadVarint(b).rest;
      var after := Skip(rest, u % 8).rest;
      b == Saved(u, rest, after) + after
  {
    hide ReadVarint, Varint, Skip, FindField;
  }

  lemma UnknownExtends(S: Schema, t: nat, m: Msg, b: Bytes)
    requires Shaped(S, t, m) && S[t].keepsUnknown && UnknownFields(S[t].fields, b)
    ensures Shaped(S, t, m.(unknown := m.unknown + b))
  {
    hide UnknownFields;
    UnknownFieldsAppend(S[t].fields, m.unknown, b);
  }

  lemma UnknownStep(S: Schema, t: nat, g: bool, m: Msg, p: Progress, u: Word64, rest: Bytes, tail: Bytes)
    requires GoodSchema(S) && Shaped(S, t, m) && S[t].keepsUnknown
    requires u / 8 > 0 && u % 8 != WIRE_END_GROUP && FindField(S[t].fields, u / 8, 0).None?
    requires Skip(rest, u % 8).Ok?
    ensures var after := Skip(rest, u % 8).rest;
      var next := m.(unknown := m.unknown + Saved(u, rest, after));
      && Shaped(S, t, next)
      && Unmarshal(S, t, g, m, p, Varint(u) + rest + tail) == Unmarshal(S, t, g, next, p, after + tail)
  {
    hide ReadVarint, Varint, Skip, DecodeSlot, FindField, ShapedSlot, UnknownFields;
    var after := Skip(rest, u % 8).rest;
    assert Varint(u) + rest + tail == Varint(u) + (rest + tail);
    VarintRoundTrip(u, rest + tail);
    SkipStaysLocal(rest, u % 8, tail);
    assert (rest + tail)[..|rest + tail| - |after + tail|] == rest[..|rest| - |after|];
    assert Remember(S, t, m, u, rest + tail) == m.(unknown := m.unknown + Saved(u, rest, after));
  }

  // ---------------------------------------------------------------- packed fields

  predicate Numbers(word: Word, values: seq<Value>) {
    forall j :: 0 <= j < |values| ==> values[j].Num? && InRange(word, values[j].n)
  }

  lemma {:induction false} CountReads(word: Word, coder: Coder, values: seq<Value>, j: nat, tail: Bytes)
    requires j <= |values| && Numbers(word, values) && Keeps(coder, word)
    ensures ReadCount(word, coder, values[..j], |values| - j, PackedBody(word, coder, values, j) + tail)
      == Ok(values, tail)
    decreases |values| - j
  {
    hide WriteScalar, ReadScalar, Widen, Narrow;
    if j == |values| {
      assert values[..j] == values && [] + tail == tail;
    } else {
      var more := PackedBody(word, coder, values, j + 1) + tail;
      assert PackedBody(word, coder, values, j) + tail == WriteScalar(coder, Widen(word, values[j].n)) + more;
      ScalarRoundTrip(word, coder, values[j].n, more);
      assert values[..j] + [values[j]] == values[..j + 1];
      CountReads(word, coder, values, j + 1, tail);
    }
  }

  lemma WritesSomething(coder: Coder, u: Word64)
    ensures |WriteScalar(coder, u)| >= 1
  {
  }

  lemma {:induction false} UntilReads(word: Word, coder: Coder, values: seq<Value>, j: nat, tail: Bytes)
    requires j <= |values| && Numbers(word, values) && Keeps(coder, word)
    ensures ReadUntil(word, coder, values[..j], |tail|, PackedBody(word, coder, values, j) + tail)
      == Ok(values, tail)
    decreases |values| - j
  {
    hide WriteScalar, ReadScalar, Widen, Narrow;
    if j == |values| {
      assert values[..j] == values && [] + tail == tail;
    } else {
      var more := PackedBody(word, coder, values, j + 1) + tail;
      WritesSomething(coder, Widen(word, values[j].n));
      assert PackedBody(word, coder, values, j) + tail == WriteScalar(coder, Widen(word, values[j].n)) + more;
      ScalarRoundTrip(word, coder, values[j].n, more);
      assert values[..j] + [values[j]] == values[..j + 1];
      UntilReads(word, coder, values, j + 1, tail);
    }
  }

  lemma PackedReads(word: Word, coder: Coder, values: seq<Value>, tail: Bytes)
    requires Numbers(word, values) && Keeps(coder, word)
    requires |PackedBody(word, coder, values, 0)| < TWO_63
    ensures ReadPacked(word, coder, [], Delimited(PackedBody(word, coder, values, 0)) + tail) == Ok(values, tail)
  {
    hide WriteScalar, ReadScalar, Widen, Narrow, PackedBody, ReadVarint, Varint, ReadCount, ReadUntil;
    var body := PackedBody(word, coder, values, 0);
    assert Delimited(body) + tail == Varint(|body|) + (body + tail);
    VarintRoundTrip(|body|, body + tail);
    assert values[..0] == [];
    if word.Bool? {
      BoolBody(coder, values, 0);
      CountReads(word, coder, values, 0, tail);
    } else {
      UntilReads(word, coder, values, 0, tail);
    }
  }

  // ---------------------------------------------------------------- messages being filled

  /** The message when the first `i` slots have been read and nothing else. */
  ghost function Partial(S: Schema, t: nat, m: Msg, i: nat): (r: Msg)
    requires Shaped(S, t, m) && i <= |m.slots|
    ensures Shaped(S, t, r)
  {
    Msg(seq(|m.slots|, k requires 0 <= k < |m.slots| => if k < i then m.slots[k] else Slot([])), [])
  }

  ghost function PartialAt(S: Schema, t: nat, m: Msg, i: nat, j: nat): (r: Msg)
    requires Shaped(S, t, m) && i < |m.slots| && j <= |m.slots[i].values|
    ensures Shaped(S, t, r)
  {
    var slot := Slot(m.slots[i].values[..j]);
    assert ShapedSlot(S, S[t].fields[i], m.slots[i]);
    assert ShapedSlot(S, S[t].fields[i], slot);
    Put(S, t, Partial(S, t, m, i), i, slot)
  }

  lemma PartialAll(S: Schema, t: nat, m: Msg)
    requires Shaped(S, t, m)
    ensures Partial(S, t, m, 0) == Empty(S, t)
    ensures Partial(S, t, m, |m.slots|) == m.(unknown := [])
    ensures UnknownFit(S[t], m.unknown)
  {
    hide ShapedSlot, UnknownFields;
  }

  lemma PartialSlot(S: Schema, t: nat, m: Msg, i: nat, j: nat)
    requires Shaped(S, t, m) && i < |m.slots| && j < |m.slots[i].values|
    ensures i < |PartialAt(S, t, m, i, j).slots|
    ensures PartialAt(S, t, m, i, j).slots[i] == Slot(m.slots[i].values[..j])
    ensures ShapedSlot(S, S[t].fields[i], Slot(m.slots[i].values[..j + 1]))
    ensures Put(S, t, PartialAt(S, t, m, i, j), i, Slot(m.slots[i].values[..j + 1])) == PartialAt(S, t, m, i, j + 1)
  {
    assert ShapedSlot(S, S[t].fields[i], m.slots[i]);
    hide ShapedSlot;
    assert ShapedSlot(S, S[t].fields[i], PartialAt(S, t, m, i, j + 1).slots[i]);
  }

  lemma PartialEnds(S: Schema, t: nat, m: Msg, i: nat)
    requires Shaped(S, t, m) && i < |m.slots|
    ensures PartialAt(S, t, m, i, 0) == Partial(S, t, m, i)
    ensures PartialAt(S, t, m, i, |m.slots[i].values|) == Partial(S, t, m, i + 1)
  {
    hide ShapedSlot;
    var v := m.slots[i].values;
    assert v[..|v|] == v && v[..0] == [];
  }

  // ---------------------------------------------------------------- values

  function ValueWire(typ: Type): (w: nat)
    ensures w < 8 && w != WIRE_END_GROUP
  {
    if typ.Group? then WIRE_START_GROUP else WireType(typ)
  }

  /** A value's encoding after its tag. */
  function ValueBody(S: Schema, f: Field, v: Value): (b: Bytes)
    requires GoodSchema(S) && ShapedValue(S, f.typ, v)
    ensures EncodeValue(S, f, v) == Tagged(f.tag, ValueWire(f.typ)) + b
  {
    match f.typ
    case Scalar(word, coder) => WriteScalar(coder, Widen(word, v.n))
    case Text => Delimited(v.b)
    case Message(id) => Delimited(Encode(S, id, v.m))
    case Group(id) =>
      assert Tagged(f.tag, WIRE_START_GROUP) + Encode(S, id, v.m) + Tagged(f.tag, WIRE_END_GROUP)
          == Tagged(f.tag, WIRE_START_GROUP) + (Encode(S, id, v.m) + Tagged(f.tag, WIRE_END_GROUP));
      Encode(S, id, v.m) + Tagged(f.tag, WIRE_END_GROUP)
  }

  /** One value is read back into a slot that holds the values before it. */
  lemma {:induction false} ValueReads(S: Schema, f: Field, before: Slot, v: Value, tail: Bytes)
    requires GoodSchema(S) && GoodField(|S|, f) && ShapedSlot(S, f, before) && ShapedValue(S, f.typ, v)
    requires Fits(f.mode, before.values + [v])
    requires |EncodeValue(S, f, v)| < TWO_63
    ensures DecodeSlot(S, f, before, ValueWire(f.typ), ValueBody(S, f, v) + tail)
      == Got(Slot(before.values + [v]), MissingValue(S, f.typ, v), tail)
    decreases v, 0
  {
    hide ReadVarint, Varint, WriteScalar, ReadScalar, Widen, Narrow, Unmarshal, Encode, Shaped, ReadDelimited, Missing, Delimited;
    match f.typ
    case Scalar(word, coder) =>
      ScalarRoundTrip(word, coder, v.n, tail);
      assert Store(f.mode, before.values, v) == before.values + [v];
    case Text =>
      DelimitedRoundTrip(v.b, tail);
      assert Store(f.mode, before.values, v) == before.values + [v];
    case Message(id) =>
      var b := Encode(S, id, v.m);
      DelimitedRoundTrip(b, tail);
      MessageReads(S, id, v.m);
      assert Store(f.mode, before.values, v) == before.values + [v];
    case Group(id) =>
      GroupReads(S, id, v.m, f.tag, tail);
      assert ValueBody(S, f, v) + tail == Encode(S, id, v.m) + (Tagged(f.tag, WIRE_END_GROUP) + tail);
      assert Store(f.mode, before.values, v) == before.values + [v];
  }

  // ---------------------------------------------------------------- slots

  /** What a slot read in full does to the book-keeping. */
  ghost predicate SlotCounted(S: Schema, f: Field, slot: Slot, from: nat, p: Progress, q: Progress) {
    && q.missing == (p.missing || NestedMissing(S, f, slot, from))
    && q.required == p.required - (if f.mode.Required? && from < |slot.values| then 1 else 0)
    && q.seen <= p.seen + {f.tag}
  }

  lemma {:induction false} ValuesRead(
    S: Schema, t: nat, g: bool, m: Msg, i: nat, j: nat, p: Progress, tail: Bytes) returns (q: Progress)
    requires GoodSchema(S) && Shaped(S, t, m) && i < |m.slots| && j <= |m.slots[i].values|
    requires ShapedSlot(S, S[t].fields[i], m.slots[i])
    requires !S[t].fields[i].mode.Packed?
    requires |EncodeValues(S, S[t].fields[i], m.slots[i], j)| < TWO_63
    requires S[t].fields[i].tag !in p.seen || j == |m.slots[i].values| || !S[t].fields[i].mode.Required?
    ensures Unmarshal(S, t, g, PartialAt(S, t, m, i, j), p, EncodeValues(S, S[t].fields[i], m.slots[i], j) + tail)
      == Unmarshal(S, t, g, Partial(S, t, m, i + 1), q, tail)
    ensures SlotCounted(S, S[t].fields[i], m.slots[i], j, p, q)
    decreases m, 1, |m.slots[i].values| - j
  {
    hide Varint, Unmarshal, DecodeSlot, Encode, Shaped, MissingValue, EncodeValue, GoodSchema, ShapedSlot, Fits, PartialAt, Tail;
    TypeKnown(S, t, m);
    ShapedAt(S, t, m, i);
    var f, slot := S[t].fields[i], m.slots[i];
    if j == |slot.values| {
      PartialEnds(S, t, m, i);
      q := p;
      assert [] + tail == tail;
    } else {
      var v := slot.values[j];
      var more := EncodeValues(S, f, slot, j + 1) + tail;
      var now := PartialAt(S, t, m, i, j);
      PartialSlot(S, t, m, i, j);
      var before := now.slots[i];
      assert before.values + [v] == slot.values[..j + 1];
      ValueFits(f.mode, slot.values, j);
      PartSlot(S, f, slot, j);
      ValueReads(S, f, before, v, more);
      var body := ValueBody(S, f, v);
      assert EncodeValues(S, f, slot, j) + tail == Tagged(f.tag, ValueWire(f.typ)) + (body + more);
      KnownStep(S, t, g, now, p, i, ValueWire(f.typ), body + more);
      var next := Tally(p, f, MissingValue(S, f.typ, v));
      q := ValuesRead(S, t, g, m, i, j + 1, next, tail);
    }
  }

  lemma ValueFits(mode: Label, values: seq<Value>, j: nat)
    requires Fits(mode, values) && j < |values|
    ensures Fits(mode, values[..j + 1]) && Fits(mode, values[..j])
    ensures Singular(mode) ==> j == 0 && |values| == 1
  {
  }

  lemma PartSlot(S: Schema, f: Field, slot: Slot, j: nat)
    requires ShapedSlot(S, f, slot) && j < |slot.values|
    ensures ShapedSlot(S, f, Slot(slot.values[..j])) && ShapedValue(S, f.typ, slot.values[j])
  {
    ValueFits(f.mode, slot.values, j);
  }

  lemma ScalarsMissNothing(S: Schema, f: Field, slot: Slot)
    requires f.typ.Scalar?
    ensures !NestedMissing(S, f, slot, 0)
  {
  }

  lemma {:induction false} SlotReads(
    S: Schema, t: nat, g: bool, m: Msg, i: nat, p: Progress, tail: Bytes) returns (q: Progress)
    requires GoodSchema(S) && Shaped(S, t, m) && i < |m.slots|
    requires GoodField(|S|, S[t].fields[i]) && ShapedSlot(S, S[t].fields[i], m.slots[i])
    requires |EncodeSlot(S, S[t].fields[i], m.slots[i])| < TWO_63
    requires S[t].fields[i].tag !in p.seen
    ensures Unmarshal(S, t, g, Partial(S, t, m, i), p, EncodeSlot(S, S[t].fields[i], m.slots[i]) + tail)
      == Unmarshal(S, t, g, Partial(S, t, m, i + 1), q, tail)
    ensures SlotCounted(S, S[t].fields[i], m.slots[i], 0, p, q)
    decreases m, 2
  {
    hide Varint, Unmarshal, Encode, Shaped, EncodeValue, EncodeValues, PackedBody, ReadPacked, ReadScalar, PartialAt, Tail, GoodSchema, MissingValue;
    TypeKnown(S, t, m);
    var f, slot := S[t].fields[i], m.slots[i];
    PartialEnds(S, t, m, i);
    if !f.mode.Packed? {
      assert EncodeSlot(S, f, slot) == EncodeValues(S, f, slot, 0);
      q := ValuesRead(S, t, g, m, i, 0, p, tail);
    } else if slot.values == [] {
      q := p;
      assert [] + tail == tail;
    } else {
      q := p;
      ScalarsMissNothing(S, f, slot);
      var body := PackedBody(f.typ.word, f.typ.coder, slot.values, 0);
      PackedReads(f.typ.word, f.typ.coder, slot.values, tail);
      var now := Partial(S, t, m, i);
      assert EncodeSlot(S, f, slot) + tail == Tagged(f.tag, WIRE_BYTES) + (Delimited(body) + tail);
      KnownStep(S, t, g, now, p, i, WIRE_BYTES, Delimited(body) + tail);
      assert !TakesWire(f, WIRE_BYTES) && Packable(f);
      assert DecodeSlot(S, f, Slot([]), WIRE_BYTES, Delimited(body) + tail) == Got(slot, false, tail);
      assert Put(S, t, now, i, slot) == Partial(S, t, m, i + 1);
    }
  }

  // ---------------------------------------------------------------- messages

  function UnsetFrom(fields: seq<Field>, slots: seq<Slot>, i: nat): (n: nat)
    requires |slots| == |fields| && i <= |fields|
    decreases |fields| - i
  {
    if i == |fields| then 0
    else (if Unset(fields[i], slots[i]) then 1 else 0) + UnsetFrom(fields, slots, i + 1)
  }

  lemma {:induction false} UnsetCounted(fields: seq<Field>, slots: seq<Slot>, i: nat)
    requires |slots| == |fields| && i <= |fields|
    ensures UnsetFrom(fields, slots, i) > 0 <==> exists k :: i <= k < |fields| && Unset(fields[k], slots[k])
    decreases |fields| - i
  {
    if i < |fields| {
      UnsetCounted(fields, slots, i + 1);
    }
  }

  ghost predicate NestedFrom(S: Schema, t: nat, m: Msg, i: nat)
    requires t < |S| && |m.slots| == |S[t].fields|
  {
    exists k :: i <= k < |m.slots| && NestedMissing(S, S[t].fields[k], m.slots[k], 0)
  }

  lemma {:induction false} SlotsRead(
    S: Schema, t: nat, g: bool, m: Msg, i: nat, p: Progress, tail: Bytes) returns (q: Progress)
    requires GoodSchema(S) && Shaped(S, t, m) && i <= |m.slots|
    requires |EncodeSlots(S, t, m, i)| < TWO_63
    requires forall k :: i <= k < |m.slots| ==> S[t].fields[k].tag !in p.seen
    ensures Unmarshal(S, t, g, Partial(S, t, m, i), p, EncodeSlots(S, t, m, i) + tail)
      == Unmarshal(S, t, g, Partial(S, t, m, |m.slots|), q, tail)
    ensures q.missing == (p.missing || NestedFrom(S, t, m, i))
    ensures q.required == p.required - RequiredFrom(S[t].fields, i) + UnsetFrom(S[t].fields, m.slots, i)
    decreases m, 3, |m.slots| - i
  {
    hide Unmarshal, EncodeSlot, Shaped, NestedMissing, Partial, Tail, GoodSchema;
    TypeKnown(S, t, m);
    if i == |m.slots| {
      q := p;
      assert [] + tail == tail;
    } else {
      var f, slot := S[t].fields[i], m.slots[i];
      ShapedAt(S, t, m, i);
      var more := EncodeSlots(S, t, m, i + 1) + tail;
      assert EncodeSlots(S, t, m, i) + tail == EncodeSlot(S, f, slot) + more;
      var next := SlotReads(S, t, g, m, i, p, more);
      forall k | i + 1 <= k < |m.slots| ensures S[t].fields[k].tag !in next.seen {
        assert S[t].fields[k].tag > f.tag;
      }
      q := SlotsRead(S, t, g, m, i + 1, next, tail);
      assert NestedFrom(S, t, m, i) == (NestedMissing(S, f, slot, 0) || NestedFrom(S, t, m, i + 1));
    }
  }

  lemma {:induction false} BodyReads(S: Schema, t: nat, g: bool, m: Msg, tail: Bytes) returns (q: Progress)
    requires GoodSchema(S) && Shaped(S, t, m)
    requires |Encode(S, t, m)| < TWO_63
    ensures Unmarshal(S, t, g, Empty(S, t), Start(S[t]), Encode(S, t, m) + tail) == Unmarshal(S, t, g, m, q, tail)
    ensures q.missing || q.required > 0 <==> Missing(S, t, m)
    decreases m, 4
  {
    hide Unmarshal, EncodeSlots, NestedMissing, Shaped, GoodSchema, UnknownFields, Partial, Unset, Empty, Tail;
    TypeKnown(S, t, m);
    PartialAll(S, t, m);
    var n := |m.slots|;
    assert Encode(S, t, m) + tail == EncodeSlots(S, t, m, 0) + (m.unknown + tail);
    q := SlotsRead(S, t, g, m, 0, Start(S[t]), m.unknown + tail);
    UnsetCounted(S[t].fields, m.slots, 0);
    var all := Partial(S, t, m, n);
    assert [] + m.unknown == m.unknown;
    if S[t].keepsUnknown {
      UnknownReads(S, t, g, all, q, m.unknown, tail);
    } else {
      assert m.unknown + tail == tail;
    }
  }

  /**
   * Decoding the encoding of any well-shaped message into an empty one gives
   * that message, and reports a missing required field exactly when one is
   * unset outside every group.
   */
  lemma {:induction false} MessageReads(S: Schema, t: nat, m: Msg)
    requires GoodSchema(S) && Shaped(S, t, m)
    requires |Encode(S, t, m)| < TWO_63
    ensures Unmarshal(S, t, false, Empty(S, t), Start(S[t]), Encode(S, t, m)) == Done(m, Missing(S, t, m), [])
    decreases m, 5
  {
    hide Encode, Shaped, Missing, Empty, Start;
    var q := BodyReads(S, t, false, m, []);
    assert Encode(S, t, m) + [] == Encode(S, t, m);
  }

  /** The same between group markers, where an unset required field goes unreported. */
  lemma {:induction false} GroupReads(S: Schema, t: nat, m: Msg, tag: nat, tail: Bytes)
    requires GoodSchema(S) && Shaped(S, t, m) && tag <= MAX_TAG
    requires |Encode(S, t, m)| < TWO_63
    ensures Unmarshal(S, t, true, Empty(S, t), Start(S[t]), Encode(S, t, m) + (Tagged(tag, WIRE_END_GROUP) + tail))
      == Done(m, false, tail)
    decreases m, 5
  {
    hide Unmarshal, Encode, Shaped, Missing, Empty, Start;
    var q := BodyReads(S, t, true, m, Tagged(tag, WIRE_END_GROUP) + tail);
    EndStep(S, t, m, q, tag, tail);
  }

  // ---------------------------------------------------------------- required fields

  /** What the decoder reports the encoder reported too. */
  lemma {:induction false} MissingIsIncomplete(S: Schema, t: nat, m: Msg)
    requires Missing(S, t, m)
    ensures Incomplete(S, t, m)
    decreases m
  {
    var i :| 0 <= i < |m.slots|
      && (Unset(S[t].fields[i], m.slots[i]) || NestedMissing(S, S[t].fields[i], m.slots[i], 0));
    var f, slot := S[t].fields[i], m.slots[i];
    if NestedMissing(S, f, slot, 0) {
      var j :| 0 <= j < |slot.values| && MissingValue(S, f.typ, slot.values[j]);
      MissingIsIncomplete(S, f.typ.id, slot.values[j].m);
      assert IncompleteValue(S, f.typ, slot.values[j]);
    }
    assert IncompleteSlot(S, f, slot);
  }

  ghost predicate NoGroups(S: Schema) {
    forall t, i :: 0 <= t < |S| && 0 <= i < |S[t].fields| ==> !S[t].fields[i].typ.Group?
  }

  /** Without groups the two agree on every message. */
  lemma {:induction false} IncompleteIsMissing(S: Schema, t: nat, m: Msg)
    requires NoGroups(S) && Incomplete(S, t, m)
    ensures Missing(S, t, m)
    decreases m
  {
    var i :| 0 <= i < |m.slots| && IncompleteSlot(S, S[t].fields[i], m.slots[i]);
    var f, slot := S[t].fields[i], m.slots[i];
    if !Unset(f, slot) {
      var j :| 0 <= j < |slot.values| && IncompleteValue(S, f.typ, slot.values[j]);
      IncompleteIsMissing(S, f.typ.id, slot.values[j].m);
      assert MissingValue(S, f.typ, slot.values[j]);
      assert NestedMissing(S, f, slot, 0);
    }
  }

  /** With a group they may not: the encoder complains of the unset field, the decoder reads on in silence. */
  lemma GroupHidesMissing()
    ensures exists S: Schema, m: Msg ::
      GoodSchema(S) && Shaped(S, 0, m) && Incomplete(S, 0, m) && !Missing(S, 0, m)
  {
    var group, flag := Field(1, Optional, Group(1)), Field(1, Required, Scalar(Bool, AsVarint));
    var S := [Descriptor([group], true), Descriptor([flag], true)];
    var inner := Msg([Slot([])], []);
    var m := Msg([Slot([Sub(inner)])], []);
    assert GoodSchema(S);
    assert ShapedSlot(S, flag, inner.slots[0]) && Shaped(S, 1, inner);
    assert ShapedValue(S, group.typ, m.slots[0].values[0]);
    assert ShapedSlot(S, group, m.slots[0]) && Shaped(S, 0, m);
    assert IncompleteSlot(S, flag, inner.slots[0]) && Incomplete(S, 1, inner);
    assert IncompleteValue(S, group.typ, m.slots[0].values[0]);
    assert IncompleteSlot(S, group, m.slots[0]) && Incomplete(S, 0, m);
    assert !NestedMissing(S, group, m.slots[0], 0);
  }

  /** With every required field set, decoding the encoding gives the message back without complaint. */
  lemma CompleteReads(S: Schema, t: nat, m: Msg)
    requires GoodSchema(S) && Shaped(S, t, m) && !Incomplete(S, t, m)
    requires |Encode(S, t, m)| < TWO_63
    ensures Unmarshal(S, t, false, Empty(S, t), Start(S[t]), Encode(S, t, m)) == Done(m, false, [])
  {
    hide Unmarshal, Encode, Shaped, Missing, Empty, Start, Incomplete;
    MessageReads(S, t, m);
    if Missing(S, t, m) {
      MissingIsIncomplete(S, t, m);
    }
  }

  /** Encoding loses nothing: two messages with the same bytes are the same message. */
  lemma EncodeInjective(S: Schema, t: nat, a: Msg, b: Msg)
    requires GoodSchema(S) && Shaped(S, t, a) && Shaped(S, t, b)
    requires |Encode(S, t, a)| < TWO_63
    requires Encode(S, t, a) == Encode(S, t, b)
    ensures a == b
  {
    hide Unmarshal, Encode, Shaped, Missing, Empty, Start;
    MessageReads(S, t, a);
    MessageReads(S, t, b);
  }

  /** Decoding any bytes, encoding the result and decoding again changes nothing more. */
  lemma ReencodingIsStable(S: Schema, t: nat, s: Bytes)
    requires GoodSchema(S) && t < |S|
    requires Unmarshal(S, t, false, Empty(S, t), Start(S[t]), s).Done?
    requires |Encode(S, t, Unmarshal(S, t, false, Empty(S, t), Start(S[t]), s).msg)| < TWO_63
    ensures var m := Unmarshal(S, t, false, Empty(S, t), Start(S[t]), s).msg;
      Unmarshal(S, t, false, Empty(S, t), Start(S[t]), Encode(S, t, m)) == Done(m, Missing(S, t, m), [])
  {
    hide Unmarshal, Encode, Shaped, Missing, Empty, Start;
    MessageReads(S, t, Unmarshal(S, t, false, Empty(S, t), Start(S[t]), s).msg);
  }
}
