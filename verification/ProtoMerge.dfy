/**
 * Decoding into a message that holds something already, and decoding two
 * encodings one after the other: both merge. Repeated fields are joined, a
 * later singular value replaces an earlier one, and singular messages and
 * groups are merged in turn.
 */
module ProtoMerge {
  import opened Wrappers
  import opened ProtoWire
  import opened ProtoMessage
  import opened ProtoDecode
  import opened ProtoRoundTrip

  predicate Nested(typ: Type) { typ.Message? || typ.Group? }

  function MergedSlot(S: Schema, f: Field, x: Slot, y: Slot): (r: Slot)
    requires ShapedSlot(S, f, x) && ShapedSlot(S, f, y)
    ensures ShapedSlot(S, f, r)
    decreases y
  {
    if !Singular(f.mode) then JoinedSlot(S, f, x, y)
    else if y.values == [] then x
    else if Nested(f.typ) && x.values != [] then
      assert ShapedValue(S, f.typ, x.values[0]) && ShapedValue(S, f.typ, y.values[0]);
      OneFits(S, f, Sub(Merged(S, f.typ.id, x.values[0].m, y.values[0].m)));
      Slot([Sub(Merged(S, f.typ.id, x.values[0].m, y.values[0].m))])
    else y
  }

  function JoinedSlot(S: Schema, f: Field, x: Slot, y: Slot): (r: Slot)
    requires ShapedSlot(S, f, x) && ShapedSlot(S, f, y) && !Singular(f.mode)
    ensures ShapedSlot(S, f, r)
  {
    Slot(x.values + y.values)
  }

  lemma OneFits(S: Schema, f: Field, v: Value)
    requires ShapedValue(S, f.typ, v) && !IsZero(v)
    ensures ShapedSlot(S, f, Slot([v]))
  {
  }

  /** The message that has what both have, the second's where they differ. */
  function Merged(S: Schema, t: nat, a: Msg, b: Msg): (m: Msg)
    requires Shaped(S, t, a) && Shaped(S, t, b)
    ensures Shaped(S, t, m)
    decreases b
  {
    hide ShapedSlot;
    UnknownJoins(S, t, a, b);
    SlotsShaped(S, t, a);
    SlotsShaped(S, t, b);
    Msg(seq(|a.slots|, i requires 0 <= i < |a.slots| => MergedSlot(S, S[t].fields[i], a.slots[i], b.slots[i])), a.unknown + b.unknown)
  }

  lemma SlotsShaped(S: Schema, t: nat, a: Msg)
    requires Shaped(S, t, a)
    ensures t < |S| && |a.slots| == |S[t].fields|
    ensures forall i :: 0 <= i < |a.slots| ==> ShapedSlot(S, S[t].fields[i], a.slots[i])
  {
    hide ShapedSlot;
  }

  lemma UnknownJoins(S: Schema, t: nat, a: Msg, b: Msg)
    requires Shaped(S, t, a) && Shaped(S, t, b)
    ensures t < |S| && UnknownFit(S[t], a.unknown + b.unknown)
  {
    hide ShapedSlot, UnknownFields;
    if S[t].keepsUnknown {
      UnknownFieldsAppend(S[t].fields, a.unknown, b.unknown);
    }
  }

  // ---------------------------------------------------------------- messages being merged

  /** The first `i` slots have been merged. */
  ghost function MergedTo(S: Schema, t: nat, a: Msg, b: Msg, i: nat): (r: Msg)
    requires Shaped(S, t, a) && Shaped(S, t, b) && i <= |a.slots|
    ensures Shaped(S, t, r)
  {
    hide ShapedSlot;
    SlotsShaped(S, t, a);
    SlotsShaped(S, t, b);
    Msg(seq(|a.slots|, k requires 0 <= k < |a.slots| =>
          if k < i then MergedSlot(S, S[t].fields[k], a.slots[k], b.slots[k]) else a.slots[k]), a.unknown)
  }

  /** And `j` values of the next one, which is repeated, have been added. */
  ghost function MergedAt(S: Schema, t: nat, a: Msg, b: Msg, i: nat, j: nat): (r: Msg)
    requires Shaped(S, t, a) && Shaped(S, t, b) && i < |a.slots| && i < |b.slots| && j <= |b.slots[i].values|
    requires i < |S[t].fields| && !Singular(S[t].fields[i].mode)
    ensures Shaped(S, t, r) && i < |r.slots|
  {
    SlotsShaped(S, t, a);
    SlotsShaped(S, t, b);
    var slot := Slot(a.slots[i].values + b.slots[i].values[..j]);
    JoinedShaped(S, S[t].fields[i], a.slots[i], b.slots[i], j);
    Put(S, t, MergedTo(S, t, a, b, i), i, slot)
  }

  lemma JoinedShaped(S: Schema, f: Field, x: Slot, y: Slot, j: nat)
    requires ShapedSlot(S, f, x) && ShapedSlot(S, f, y) && !Singular(f.mode) && j <= |y.values|
    ensures ShapedSlot(S, f, Slot(x.values + y.values[..j]))
  {
  }

  lemma MergedEnds(S: Schema, t: nat, a: Msg, b: Msg)
    requires Shaped(S, t, a) && Shaped(S, t, b)
    ensures |a.slots| == |b.slots| && MergedTo(S, t, a, b, 0) == a
    ensures Merged(S, t, a, b) == MergedTo(S, t, a, b, |a.slots|).(unknown := a.unknown + b.unknown)
  {
    hide ShapedSlot, MergedSlot;
    SlotsShaped(S, t, a);
    SlotsShaped(S, t, b);
  }

  lemma MergedNext(S: Schema, t: nat, a: Msg, b: Msg, i: nat)
    requires Shaped(S, t, a) && Shaped(S, t, b) && i < |a.slots|
    ensures t < |S| && i < |b.slots| && i < |S[t].fields|
    ensures ShapedSlot(S, S[t].fields[i], a.slots[i]) && ShapedSlot(S, S[t].fields[i], b.slots[i])
    ensures var now := MergedTo(S, t, a, b, i);
      && i < |now.slots| && now.slots[i] == a.slots[i]
      && Put(S, t, now, i, MergedSlot(S, S[t].fields[i], a.slots[i], b.slots[i])) == MergedTo(S, t, a, b, i + 1)
    ensures b.slots[i].values == [] ==> MergedTo(S, t, a, b, i + 1) == MergedTo(S, t, a, b, i)
  {
    hide ShapedSlot;
    SlotsShaped(S, t, a);
    SlotsShaped(S, t, b);
    assert a.slots[i].values + [] == a.slots[i].values;
  }

  lemma MergedAtEnds(S: Schema, t: nat, a: Msg, b: Msg, i: nat)
    requires Shaped(S, t, a) && Shaped(S, t, b) && i < |a.slots| && i < |b.slots|
    requires i < |S[t].fields| && !Singular(S[t].fields[i].mode)
    ensures MergedAt(S, t, a, b, i, 0) == MergedTo(S, t, a, b, i)
    ensures MergedAt(S, t, a, b, i, |b.slots[i].values|) == MergedTo(S, t, a, b, i + 1)
  {
    hide ShapedSlot;
    SlotsShaped(S, t, a);
    SlotsShaped(S, t, b);
    var x, y := a.slots[i].values, b.slots[i].values;
    assert x + y[..0] == x && y[..|y|] == y;
  }

  lemma MergedAtNext(S: Schema, t: nat, a: Msg, b: Msg, i: nat, j: nat)
    requires Shaped(S, t, a) && Shaped(S, t, b) && i < |a.slots| && i < |b.slots| && j < |b.slots[i].values|
    requires i < |S[t].fields| && !Singular(S[t].fields[i].mode)
    ensures var now, v := MergedAt(S, t, a, b, i, j), b.slots[i].values[j];
      && now.slots[i] == Slot(a.slots[i].values + b.slots[i].values[..j])
      && ShapedSlot(S, S[t].fields[i], now.slots[i]) && ShapedSlot(S, S[t].fields[i], Slot([v]))
      && Put(S, t, now, i, MergedSlot(S, S[t].fields[i], now.slots[i], Slot([v]))) == MergedAt(S, t, a, b, i, j + 1)
  {
    SlotsShaped(S, t, a);
    SlotsShaped(S, t, b);
    var x, y := a.slots[i].values, b.slots[i].values;
    JoinedShaped(S, S[t].fields[i], a.slots[i], b.slots[i], j);
    OneOf(S, S[t].fields[i], b.slots[i], j);
    hide ShapedSlot;
    assert (x + y[..j]) + [y[j]] == x + y[..j + 1];
  }

  lemma OneOf(S: Schema, f: Field, y: Slot, j: nat)
    requires ShapedSlot(S, f, y) && j < |y.values|
    ensures ShapedSlot(S, f, Slot([y.values[j]])) && ShapedValue(S, f.typ, y.values[j])
  {
  }

  // ---------------------------------------------------------------- reading merges

  /** One value is merged into the slot. */
  lemma {:induction false} ValueMerges(S: Schema, f: Field, before: Slot, v: Value, tail: Bytes) returns (missing: bool)
    requires GoodSchema(S) && GoodField(|S|, f) && ShapedSlot(S, f, before) && ShapedSlot(S, f, Slot([v]))
    requires ShapedValue(S, f.typ, v) && |EncodeValue(S, f, v)| < TWO_63
    ensures DecodeSlot(S, f, before, ValueWire(f.typ), ValueBody(S, f, v) + tail)
      == Got(MergedSlot(S, f, before, Slot([v])), missing, tail)
    decreases v, 0
  {
    hide ReadVarint, Varint, WriteScalar, ReadScalar, Widen, Narrow, Unmarshal, Encode, Shaped, ReadDelimited, Missing, Delimited, Merged;
    missing := false;
    match f.typ
    case Scalar(word, coder) => ScalarRoundTrip(word, coder, v.n, tail);
    case Text => DelimitedRoundTrip(v.b, tail);
    case Message(id) =>
      DelimitedRoundTrip(Encode(S, id, v.m), tail);
      if Singular(f.mode) && before.values != [] {
        assert ShapedValue(S, f.typ, before.values[0]);
        missing := MessageMerges(S, id, before.values[0].m, v.m);
      } else {
        MessageReads(S, id, v.m);
        missing := Missing(S, id, v.m);
      }
    case Group(id) =>
      assert ValueBody(S, f, v) + tail == Encode(S, id, v.m) + (Tagged(f.tag, WIRE_END_GROUP) + tail);
      if Singular(f.mode) && before.values != [] {
        assert ShapedValue(S, f.typ, before.values[0]);
        GroupMerges(S, id, before.values[0].m, v.m, f.tag, tail);
      } else {
        GroupReads(S, id, v.m, f.tag, tail);
      }
  }

  lemma {:induction false} ValuesMerge(S: Schema, t: nat, g: bool, a: Msg, b: Msg, i: nat, j: nat, p: Progress, tail: Bytes)
    returns (q: Progress)
    requires GoodSchema(S) && Shaped(S, t, a) && Shaped(S, t, b) && i < |a.slots| && i < |b.slots| && j <= |b.slots[i].values|
    requires i < |S[t].fields| && S[t].fields[i].mode.Repeated? && ShapedSlot(S, S[t].fields[i], b.slots[i])
    requires |EncodeValues(S, S[t].fields[i], b.slots[i], j)| < TWO_63
    ensures Unmarshal(S, t, g, MergedAt(S, t, a, b, i, j), p, EncodeValues(S, S[t].fields[i], b.slots[i], j) + tail)
      == Unmarshal(S, t, g, MergedTo(S, t, a, b, i + 1), q, tail)
    decreases b, 1, |b.slots[i].values| - j
  {
    hide Varint, Unmarshal, DecodeSlot, Encode, Shaped, MissingValue, EncodeValue, GoodSchema, ShapedSlot, Fits, MergedAt, MergedTo, MergedSlot, Tail;
    TypeKnown(S, t, b);
    var f, slot := S[t].fields[i], b.slots[i];
    if j == |slot.values| {
      MergedAtEnds(S, t, a, b, i);
      q := p;
      assert [] + tail == tail;
    } else {
      ShapedAt(S, t, b, i);
      var v, now := slot.values[j], MergedAt(S, t, a, b, i, j);
      var more := EncodeValues(S, f, slot, j + 1) + tail;
      MergedAtNext(S, t, a, b, i, j);
      OneOf(S, f, slot, j);
      var missing := ValueMerges(S, f, now.slots[i], v, more);
      var body := ValueBody(S, f, v);
      assert EncodeValues(S, f, slot, j) + tail == Tagged(f.tag, ValueWire(f.typ)) + (body + more);
      KnownStep(S, t, g, now, p, i, ValueWire(f.typ), body + more);
      q := ValuesMerge(S, t, g, a, b, i, j + 1, Tally(p, f, missing), tail);
    }
  }

  /** A packed field is added to the values there are. */
  lemma PackedMerges(word: Word, coder: Coder, before: seq<Value>, values: seq<Value>, tail: Bytes)
    requires Numbers(word, before) && Numbers(word, values) && Keeps(coder, word)
    requires |PackedBody(word, coder, values, 0)| < TWO_63
    ensures ReadPacked(word, coder, before, Delimited(PackedBody(word, coder, values, 0)) + tail) == Ok(before + values, tail)
  {
    hide WriteScalar, ReadScalar, Widen, Narrow, PackedBody, ReadVarint, Varint, ReadCount, ReadUntil;
    var body, all := PackedBody(word, coder, values, 0), before + values;
    assert Delimited(body) + tail == Varint(|body|) + (body + tail);
    VarintRoundTrip(|body|, body + tail);
    assert all[..|before|] == before;
    PackedLater(word, coder, before, values, 0);
    if word.Bool? {
      BoolBody(coder, values, 0);
      CountReads(word, coder, all, |before|, tail);
    } else {
      UntilReads(word, coder, all, |before|, tail);
    }
  }

  lemma {:induction false} PackedLater(word: Word, coder: Coder, before: seq<Value>, values: seq<Value>, j: nat)
    requires Numbers(word, before) && Numbers(word, values) && j <= |values|
    ensures PackedBody(word, coder, before + values, |before| + j) == PackedBody(word, coder, values, j)
    decreases |values| - j
  {
    hide WriteScalar, Widen;
    if j < |values| { PackedLater(word, coder, before, values, j + 1); }
  }

  lemma {:induction false} SlotMerges(S: Schema, t: nat, g: bool, a: Msg, b: Msg, i: nat, p: Progress, tail: Bytes)
    returns (q: Progress)
    requires GoodSchema(S) && Shaped(S, t, a) && Shaped(S, t, b) && i < |a.slots| && i < |b.slots|
    requires GoodField(|S|, S[t].fields[i]) && ShapedSlot(S, S[t].fields[i], b.slots[i])
    requires |EncodeSlot(S, S[t].fields[i], b.slots[i])| < TWO_63
    ensures Unmarshal(S, t, g, MergedTo(S, t, a, b, i), p, EncodeSlot(S, S[t].fields[i], b.slots[i]) + tail)
      == Unmarshal(S, t, g, MergedTo(S, t, a, b, i + 1), q, tail)
    decreases b, 2
  {
    hide Varint, Unmarshal, Encode, Shaped, EncodeValue, EncodeValues, PackedBody, ReadPacked, ReadScalar, MergedAt, MergedTo, MergedSlot, Tail, GoodSchema, DecodeSlot, ShapedSlot;
    MergedNext(S, t, a, b, i);
    var f, slot := S[t].fields[i], b.slots[i];
    if f.mode.Packed? {
      q := PackedSlotMerges(S, t, g, a, b, i, p, tail);
    } else if f.mode.Repeated? {
      MergedAtEnds(S, t, a, b, i);
      q := ValuesMerge(S, t, g, a, b, i, 0, p, tail);
    } else {
      q := SingularMerges(S, t, g, a, b, i, p, tail);
    }
  }

  lemma {:induction false} SingularMerges(S: Schema, t: nat, g: bool, a: Msg, b: Msg, i: nat, p: Progress, tail: Bytes)
    returns (q: Progress)
    requires GoodSchema(S) && Shaped(S, t, a) && Shaped(S, t, b) && i < |a.slots| && i < |b.slots|
    requires GoodField(|S|, S[t].fields[i]) && ShapedSlot(S, S[t].fields[i], b.slots[i]) && Singular(S[t].fields[i].mode)
    requires |EncodeSlot(S, S[t].fields[i], b.slots[i])| < TWO_63
    ensures Unmarshal(S, t, g, MergedTo(S, t, a, b, i), p, EncodeSlot(S, S[t].fields[i], b.slots[i]) + tail)
      == Unmarshal(S, t, g, MergedTo(S, t, a, b, i + 1), q, tail)
    decreases b, 1
  {
    hide Varint, Unmarshal, Encode, Shaped, EncodeValue, MergedTo, MergedSlot, Tail, GoodSchema, DecodeSlot, ShapedSlot, ShapedValue;
    MergedNext(S, t, a, b, i);
    var f, slot := S[t].fields[i], b.slots[i];
    AtMostOne(S, f, slot);
    q := p;
    if slot.values == [] {
      assert EncodeValues(S, f, slot, 0) == [] && [] + tail == tail;
    } else {
      var v, now := slot.values[0], MergedTo(S, t, a, b, i);
      OneOf(S, f, slot, 0);
      assert slot == Slot([v]);
      assert EncodeValues(S, f, slot, 1) == [];
      assert EncodeValues(S, f, slot, 0) == EncodeValue(S, f, v) + [];
      var missing := ValueMerges(S, f, now.slots[i], v, tail);
      var body := ValueBody(S, f, v);
      assert EncodeSlot(S, f, slot) + tail == Tagged(f.tag, ValueWire(f.typ)) + (body + tail);
      KnownStep(S, t, g, now, p, i, ValueWire(f.typ), body + tail);
      q := Tally(p, f, missing);
    }
  }

  lemma AtMostOne(S: Schema, f: Field, slot: Slot)
    requires ShapedSlot(S, f, slot) && Singular(f.mode)
    ensures |slot.values| <= 1
  {
  }

  lemma PackedSlotMerges(S: Schema, t: nat, g: bool, a: Msg, b: Msg, i: nat, p: Progress, tail: Bytes) returns (q: Progress)
    requires GoodSchema(S) && Shaped(S, t, a) && Shaped(S, t, b) && i < |a.slots| && i < |b.slots|
    requires GoodField(|S|, S[t].fields[i]) && ShapedSlot(S, S[t].fields[i], b.slots[i]) && S[t].fields[i].mode.Packed?
    requires |EncodeSlot(S, S[t].fields[i], b.slots[i])| < TWO_63
    ensures Unmarshal(S, t, g, MergedTo(S, t, a, b, i), p, EncodeSlot(S, S[t].fields[i], b.slots[i]) + tail)
      == Unmarshal(S, t, g, MergedTo(S, t, a, b, i + 1), q, tail)
  {
    hide Varint, Unmarshal, Shaped, PackedBody, ReadPacked, ReadScalar, MergedTo, Tail, GoodSchema;
    MergedNext(S, t, a, b, i);
    var f, slot, before := S[t].fields[i], b.slots[i], a.slots[i];
    q := p;
    if slot.values == [] {
      assert EncodeSlot(S, f, slot) == [] && [] + tail == tail;
    } else {
      var now := MergedTo(S, t, a, b, i);
      AllNumbers(S, f, slot);
      AllNumbers(S, f, before);
      var body := PackedBody(f.typ.word, f.typ.coder, slot.values, 0);
      PackedMerges(f.typ.word, f.typ.coder, before.values, slot.values, tail);
      assert EncodeSlot(S, f, slot) + tail == Tagged(f.tag, WIRE_BYTES) + (Delimited(body) + tail);
      KnownStep(S, t, g, now, p, i, WIRE_BYTES, Delimited(body) + tail);
      assert !TakesWire(f, WIRE_BYTES) && Packable(f);
      assert DecodeSlot(S, f, before, WIRE_BYTES, Delimited(body) + tail) == Got(Slot(before.values + slot.values), false, tail);
      q := Tally(p, f, false);
    }
  }

  lemma AllNumbers(S: Schema, f: Field, slot: Slot)
    requires ShapedSlot(S, f, slot) && f.typ.Scalar?
    ensures Numbers(f.typ.word, slot.values)
  {
    assert forall j :: 0 <= j < |slot.values| ==> ShapedValue(S, f.typ, slot.values[j]);
  }

  lemma {:induction false} SlotsMerge(S: Schema, t: nat, g: bool, a: Msg, b: Msg, i: nat, p: Progress, tail: Bytes)
    returns (q: Progress)
    requires GoodSchema(S) && Shaped(S, t, a) && Shaped(S, t, b) && |a.slots| == |b.slots| && i <= |a.slots|
    requires |EncodeSlots(S, t, b, i)| < TWO_63
    ensures Unmarshal(S, t, g, MergedTo(S, t, a, b, i), p, EncodeSlots(S, t, b, i) + tail)
      == Unmarshal(S, t, g, MergedTo(S, t, a, b, |a.slots|), q, tail)
    decreases b, 3, |a.slots| - i
  {
    hide Unmarshal, EncodeSlot, Shaped, MergedTo, Tail, GoodSchema, ShapedSlot;
    if i == |a.slots| {
      q := p;
      assert [] + tail == tail;
    } else {
      ShapedAt(S, t, b, i);
      TypeKnown(S, t, b);
      var f, slot := S[t].fields[i], b.slots[i];
      var more := EncodeSlots(S, t, b, i + 1) + tail;
      assert EncodeSlots(S, t, b, i) + tail == EncodeSlot(S, f, slot) + more;
      var next := SlotMerges(S, t, g, a, b, i, p, more);
      q := SlotsMerge(S, t, g, a, b, i + 1, next, tail);
    }
  }

  lemma {:induction false} BodyMerges(S: Schema, t: nat, g: bool, a: Msg, b: Msg, p: Progress, tail: Bytes) returns (q: Progress)
    requires GoodSchema(S) && Shaped(S, t, a) && Shaped(S, t, b) && |Encode(S, t, b)| < TWO_63
    ensures Unmarshal(S, t, g, a, p, Encode(S, t, b) + tail) == Unmarshal(S, t, g, Merged(S, t, a, b), q, tail)
    decreases b, 4
  {
    hide Unmarshal, EncodeSlots, Shaped, GoodSchema, UnknownFields, MergedTo, Merged, Tail;
    TypeKnown(S, t, b);
    MergedEnds(S, t, a, b);
    assert Encode(S, t, b) + tail == EncodeSlots(S, t, b, 0) + (b.unknown + tail);
    q := SlotsMerge(S, t, g, a, b, 0, p, b.unknown + tail);
    var all := MergedTo(S, t, a, b, |a.slots|);
    UnknownOf(S, t, a, b);
    if S[t].keepsUnknown {
      UnknownReads(S, t, g, all, q, b.unknown, tail);
    } else {
      assert b.unknown + tail == tail && a.unknown + b.unknown == a.unknown;
    }
  }

  lemma UnknownOf(S: Schema, t: nat, a: Msg, b: Msg)
    requires Shaped(S, t, a) && Shaped(S, t, b)
    ensures if S[t].keepsUnknown then UnknownFields(S[t].fields, b.unknown) else b.unknown == []
    ensures MergedTo(S, t, a, b, |a.slots|).unknown == a.unknown
  {
    hide ShapedSlot, UnknownFields;
  }

  /** Decoding the encoding of a message into another merges it into that one. */
  lemma {:induction false} MessageMerges(S: Schema, t: nat, a: Msg, b: Msg) returns (missing: bool)
    requires GoodSchema(S) && Shaped(S, t, a) && Shaped(S, t, b) && |Encode(S, t, b)| < TWO_63
    ensures Unmarshal(S, t, false, a, Start(S[t]), Encode(S, t, b)) == Done(Merged(S, t, a, b), missing, [])
    decreases b, 5
  {
    hide Encode, Shaped, Merged, Start;
    TypeKnown(S, t, b);
    var q := BodyMerges(S, t, false, a, b, Start(S[t]), []);
    assert Encode(S, t, b) + [] == Encode(S, t, b);
    missing := q.missing || q.required > 0;
  }

  lemma {:induction false} GroupMerges(S: Schema, t: nat, a: Msg, b: Msg, tag: nat, tail: Bytes)
    requires GoodSchema(S) && Shaped(S, t, a) && Shaped(S, t, b) && tag <= MAX_TAG && |Encode(S, t, b)| < TWO_63
    ensures Unmarshal(S, t, true, a, Start(S[t]), Encode(S, t, b) + (Tagged(tag, WIRE_END_GROUP) + tail))
      == Done(Merged(S, t, a, b), false, tail)
    decreases b, 5
  {
    hide Unmarshal, Encode, Shaped, Merged, Start;
    TypeKnown(S, t, b);
    var q := BodyMerges(S, t, true, a, b, Start(S[t]), Tagged(tag, WIRE_END_GROUP) + tail);
    EndStep(S, t, Merged(S, t, a, b), q, tag, tail);
  }

  /** Two encodings one after the other decode to the two messages merged. */
  lemma TwoEncodingsMerge(S: Schema, t: nat, a: Msg, b: Msg)
    requires GoodSchema(S) && Shaped(S, t, a) && Shaped(S, t, b)
    requires |Encode(S, t, a)| < TWO_63 && |Encode(S, t, b)| < TWO_63
    ensures var o := Unmarshal(S, t, false, Empty(S, t), Start(S[t]), Encode(S, t, a) + Encode(S, t, b));
      o.Done? && o.msg == Merged(S, t, a, b) && o.rest == []
  {
    hide Encode, Shaped, Merged, Start, Empty;
    var q := BodyReads(S, t, false, a, Encode(S, t, b));
    var r := BodyMerges(S, t, false, a, b, q, []);
    assert Encode(S, t, b) + [] == Encode(S, t, b);
  }

  /** A repeated field takes packed and single values alike, whichever way its descriptor writes them. */
  lemma PackedOrNot(S: Schema, f: Field, slot: Slot, wire: nat, s: Bytes)
    requires GoodSchema(S) && GoodField(|S|, f) && f.mode.Repeated? && f.typ.Scalar? && ShapedSlot(S, f, slot)
    ensures var packed := f.(mode := Packed);
      GoodField(|S|, packed) && ShapedSlot(S, packed, slot) && DecodeSlot(S, packed, slot, wire, s) == DecodeSlot(S, f, slot, wire, s)
  {
    hide ReadPacked, ReadScalar, Unmarshal, Narrow;
  }
}
