/**
 * Required fields on arbitrary bytes: the decoder counts those with tags up
 * to 64 by a bitmap and the others by a bare counter. The schemas for which a
 * message that lacks a required field is always reported are found exactly.
 */
module ProtoRequired {
  import opened Wrappers
  import opened ProtoWire
  import opened ProtoMessage
  import opened ProtoDecode
  import opened ProtoRoundTrip

  const BITMAP_TAGS: nat := 64

  /** The bytes decode into a message of the type without a complaint. */
  predicate Quiet(S: Schema, t: nat, s: Bytes)
    requires GoodSchema(S) && t < |S|
  {
    var o := Unmarshal(S, t, false, Empty(S, t), Start(S[t]), s);
    o.Done? && !o.missing
  }

  /** No bytes that a length can announce decode into the type without a complaint. */
  ghost predicate Mute(S: Schema, t: nat)
    requires GoodSchema(S) && t < |S|
  {
    forall s :: |s| < TWO_63 ==> !Quiet(S, t, s)
  }

  /** No other field of the message type is required. */
  predicate Alone(fields: seq<Field>, i: nat) {
    forall j :: 0 <= j < |fields| && j != i ==> !fields[j].mode.Required?
  }

  /**
   * Reading the field again cannot stand in for another: the bitmap covers its
   * tag, there is no other, or it cannot be read without a complaint.
   */
  ghost predicate Countable(S: Schema, fields: seq<Field>, i: nat)
    requires GoodSchema(S) && i < |fields| && GoodField(|S|, fields[i])
  {
    var f := fields[i];
    f.mode.Required? ==> f.tag <= BITMAP_TAGS || Alone(fields, i) || (f.typ.Message? && Mute(S, f.typ.id))
  }

  /** Every required field of every message type is counted right. */
  ghost predicate Safe(S: Schema)
    requires GoodSchema(S)
  {
    forall t, i :: 0 <= t < |S| && 0 <= i < |S[t].fields| ==> Countable(S, S[t].fields, i)
  }

  /** Required fields from the `i`-th on whose tags have not been seen. */
  function Unseen(fields: seq<Field>, seen: set<nat>, i: nat): (n: nat)
    requires i <= |fields|
    decreases |fields| - i
  {
    if i == |fields| then 0
    else (if fields[i].mode.Required? && fields[i].tag !in seen then 1 else 0) + Unseen(fields, seen, i + 1)
  }

  lemma {:induction false} UnseenAtStart(fields: seq<Field>, i: nat)
    requires i <= |fields|
    ensures Unseen(fields, {}, i) == RequiredFrom(fields, i)
    decreases |fields| - i
  {
    if i < |fields| {
      UnseenAtStart(fields, i + 1);
    }
  }

  lemma {:induction false} UnseenSome(fields: seq<Field>, seen: set<nat>, i: nat, k: nat)
    requires i <= k < |fields| && fields[k].mode.Required? && fields[k].tag !in seen
    ensures Unseen(fields, seen, i) > 0
    decreases k - i
  {
    if i < k {
      UnseenSome(fields, seen, i + 1, k);
    }
  }

  /** Seeing one more tag takes its field off the count, and no other. */
  lemma {:induction false} UnseenStep(count: nat, d: Descriptor, seen: set<nat>, k: nat, i: nat)
    requires GoodDescriptor(count, d) && k < |d.fields| && i <= |d.fields|
    requires d.fields[k].mode.Required? && d.fields[k].tag !in seen
    ensures Unseen(d.fields, seen + {d.fields[k].tag}, i) == Unseen(d.fields, seen, i) - if i <= k then 1 else 0
    decreases |d.fields| - i
  {
    if i < |d.fields| {
      UnseenStep(count, d, seen, k, i + 1);
      assert i != k ==> d.fields[i].tag != d.fields[k].tag;
    }
  }

  ghost predicate LoneSet(fields: seq<Field>, m: Msg)
    requires |m.slots| == |fields|
  {
    exists i :: 0 <= i < |fields| && fields[i].mode.Required? && Alone(fields, i) && m.slots[i].values != []
  }

  /**
   * While fields are read: what is missing below was reported, or was missing
   * below from the start (`before`); the counter is that of the required
   * fields not seen, unless there was a complaint or the one required field is
   * beyond the bitmap and set; and a field that was seen is set.
   */
  ghost predicate Tracks(S: Schema, t: nat, m: Msg, p: Progress, before: bool)
    requires t < |S| && |m.slots| == |S[t].fields|
  {
    && (NestedFrom(S, t, m, 0) ==> p.missing || before)
    && (p.missing || p.required == Unseen(S[t].fields, p.seen, 0) || LoneSet(S[t].fields, m))
    && forall i :: 0 <= i < |m.slots| && S[t].fields[i].mode.Required? && S[t].fields[i].tag in p.seen ==> m.slots[i].values != []
  }

  lemma TracksStart(S: Schema, t: nat, m: Msg)
    requires Shaped(S, t, m)
    ensures t < |S| && |m.slots| == |S[t].fields|
    ensures Tracks(S, t, m, Start(S[t]), NestedFrom(S, t, m, 0))
  {
    hide NestedFrom;
    TypeKnown(S, t, m);
    UnseenAtStart(S[t].fields, 0);
  }

  lemma TracksEnd(S: Schema, t: nat, m: Msg, p: Progress, before: bool)
    requires Shaped(S, t, m) && t < |S| && |m.slots| == |S[t].fields| && Tracks(S, t, m, p, before)
    ensures Missing(S, t, m) ==> p.missing || p.required > 0 || before
  {
    hide Shaped;
    if Missing(S, t, m) {
      var i :| 0 <= i < |m.slots|
        && (Unset(S[t].fields[i], m.slots[i]) || NestedMissing(S, S[t].fields[i], m.slots[i], 0));
      if Unset(S[t].fields[i], m.slots[i]) {
        UnseenSome(S[t].fields, p.seen, 0, i);
      }
    }
  }

  lemma TracksPut(S: Schema, t: nat, m: Msg, p: Progress, before: bool, i: nat, slot: Slot, missing: bool)
    requires GoodSchema(S) && Shaped(S, t, m) && t < |S| && |m.slots| == |S[t].fields| && i < |m.slots|
    requires ShapedSlot(S, S[t].fields[i], slot) && Tracks(S, t, m, p, before)
    requires NestedMissing(S, S[t].fields[i], slot, 0) ==> missing || NestedMissing(S, S[t].fields[i], m.slots[i], 0)
    requires S[t].fields[i].mode.Required? ==> slot.values != []
    requires Countable(S, S[t].fields, i) && GoodField(|S|, S[t].fields[i])
    requires S[t].fields[i].typ.Message? && Mute(S, S[t].fields[i].typ.id) ==> missing
    ensures var next := Put(S, t, m, i, slot);
      |next.slots| == |S[t].fields| && Tracks(S, t, next, Tally(p, S[t].fields[i], missing), before)
  {
    hide NestedMissing, ShapedSlot, Shaped, GoodSchema;
    var f := S[t].fields[i];
    ShapedAt(S, t, m, i);
    if f.mode.Required? && f.tag !in p.seen {
      UnseenStep(|S|, S[t], p.seen, i, 0);
    }
    LoneKept(S, t, m, i, slot);
  }

  /** A lone required field that is set stays set, and is set by reading it. */
  lemma LoneKept(S: Schema, t: nat, m: Msg, i: nat, slot: Slot)
    requires Shaped(S, t, m) && t < |S| && |m.slots| == |S[t].fields| && i < |m.slots|
    requires ShapedSlot(S, S[t].fields[i], slot) && (S[t].fields[i].mode.Required? ==> slot.values != [])
    ensures var next := Put(S, t, m, i, slot);
      && |next.slots| == |S[t].fields|
      && (LoneSet(S[t].fields, m) ==> LoneSet(S[t].fields, next))
      && (S[t].fields[i].mode.Required? && Alone(S[t].fields, i) ==> LoneSet(S[t].fields, next))
  {
    hide Shaped, ShapedSlot;
    var next := Put(S, t, m, i, slot);
    if LoneSet(S[t].fields, m) {
      var k :| 0 <= k < |S[t].fields| && S[t].fields[k].mode.Required? && Alone(S[t].fields, k) && m.slots[k].values != [];
      assert k != i ==> next.slots[k] == m.slots[k];
    }
  }

  /** An empty message has nothing below it that could be missing. */
  lemma NothingBelow(S: Schema, t: nat)
    requires t < |S|
    ensures !NestedFrom(S, t, Empty(S, t), 0)
  {
  }

  lemma BelowIsMissing(S: Schema, t: nat, m: Msg)
    requires t < |S| && |m.slots| == |S[t].fields| && NestedFrom(S, t, m, 0)
    ensures Missing(S, t, m)
  {
  }

  /** Reading one field reports what it leaves missing below that was not missing there before. */
  lemma {:induction false} SlotReports(S: Schema, f: Field, slot: Slot, wire: nat, s: Bytes)
    requires GoodSchema(S) && Safe(S) && GoodField(|S|, f) && ShapedSlot(S, f, slot)
    requires DecodeSlot(S, f, slot, wire, s).Got?
    ensures var o := DecodeSlot(S, f, slot, wire, s);
      && (NestedMissing(S, f, o.slot, 0) ==> o.missing || NestedMissing(S, f, slot, 0))
      && (f.mode.Required? ==> o.slot.values != [])
    decreases |s|, 2
  {
    if f.typ.Message? {
      MessageReports(S, f, slot, wire, s);
    } else {
      hide Unmarshal, ReadPacked, ReadScalar, ReadDelimited, Missing, Shaped, GoodSchema, Base;
      OnlyMessagesMiss(S, f, DecodeSlot(S, f, slot, wire, s).slot);
      if f.mode.Required? {
        RequiredIsSet(S, f, slot, wire, s);
      }
    }
  }

  lemma OnlyMessagesMiss(S: Schema, f: Field, slot: Slot)
    requires !f.typ.Message?
    ensures !NestedMissing(S, f, slot, 0)
  {
    hide Missing;
  }

  lemma RequiredIsSet(S: Schema, f: Field, slot: Slot, wire: nat, s: Bytes)
    requires GoodSchema(S) && GoodField(|S|, f) && ShapedSlot(S, f, slot) && f.mode.Required?
    requires DecodeSlot(S, f, slot, wire, s).Got?
    ensures DecodeSlot(S, f, slot, wire, s).slot.values != []
  {
    hide Unmarshal, ReadPacked, ReadScalar, ReadDelimited, Shaped, GoodSchema, Base, Narrow;
  }

  lemma {:induction false} MessageReports(S: Schema, f: Field, slot: Slot, wire: nat, s: Bytes)
    requires GoodSchema(S) && Safe(S) && GoodField(|S|, f) && ShapedSlot(S, f, slot) && f.typ.Message?
    requires DecodeSlot(S, f, slot, wire, s).Got?
    ensures var o := DecodeSlot(S, f, slot, wire, s);
      && (NestedMissing(S, f, o.slot, 0) ==> o.missing || NestedMissing(S, f, slot, 0))
      && (f.mode.Required? ==> o.slot.values != [])
    decreases |s|, 1
  {
    hide Unmarshal, ReadPacked, ReadScalar, ReadDelimited, Missing, Shaped, GoodSchema, NestedFrom, Start;
    var id, o := f.typ.id, DecodeSlot(S, f, slot, wire, s);
    var raw := ReadDelimited(s).value;
    assert forall j :: 0 <= j < |slot.values| ==> ShapedValue(S, f.typ, slot.values[j]);
    var base := Base(S, id, f.mode, slot.values);
    TracksStart(S, id, base);
    var u := Unmarshal(S, id, false, base, Start(S[id]), raw);
    UnmarshalReports(S, id, base, Start(S[id]), raw, NestedFrom(S, id, base, 0));
    if NestedFrom(S, id, base, 0) {
      BelowIsMissing(S, id, base);
      NothingBelow(S, id);
      assert Singular(f.mode) && slot.values != [] && MissingValue(S, f.typ, slot.values[0]);
    }
    assert o == Got(Slot(Store(f.mode, slot.values, Sub(u.msg))), u.missing, ReadDelimited(s).rest);
    StoredMissing(S, f, slot, Sub(u.msg));
  }

  lemma StoredMissing(S: Schema, f: Field, slot: Slot, v: Value)
    ensures NestedMissing(S, f, Slot(Store(f.mode, slot.values, v)), 0) ==>
      MissingValue(S, f.typ, v) || NestedMissing(S, f, slot, 0)
  {
    hide MissingValue;
    var after := Store(f.mode, slot.values, v);
    if NestedMissing(S, f, Slot(after), 0) {
      var j :| 0 <= j < |after| && MissingValue(S, f.typ, after[j]);
      if after[j] != v {
        var k :| 0 <= k < |slot.values| && slot.values[k] == after[j];
      }
    }
  }

  lemma {:induction false} UnmarshalReports(S: Schema, t: nat, m: Msg, p: Progress, s: Bytes, before: bool)
    requires GoodSchema(S) && Safe(S) && Shaped(S, t, m)
    requires t < |S| && |m.slots| == |S[t].fields| && Tracks(S, t, m, p, before)
    requires Unmarshal(S, t, false, m, p, s).Done?
    ensures var o := Unmarshal(S, t, false, m, p, s); Missing(S, t, o.msg) ==> o.missing || before
    decreases |s|, 0
  {
    hide ReadVarint, Skip, Shaped, ShapedSlot, DecodeSlot, Tally, GoodSchema, GoodField, Missing, NestedMissing, Safe, Tracks, FindField, Countable, Mute;
    if s == [] {
      TracksEnd(S, t, m, p, before);
    } else {
      var u, rest := ReadVarint(s).value, ReadVarint(s).rest;
      var found := FindField(S[t].fields, u / 8, 0);
      if found.None? {
        var after := Skip(rest, u % 8).rest;
        var next := Remember(S, t, m, u, rest);
        TracksSame(S, t, m, next, p, before);
        UnmarshalReports(S, t, next, p, after, before);
      } else {
        var i := found.value;
        ShapedAt(S, t, m, i);
        var f := S[t].fields[i];
        var o := DecodeSlot(S, f, m.slots[i], u % 8, rest);
        SlotReports(S, f, m.slots[i], u % 8, rest);
        SafeAt(S, t, i);
        if f.typ.Message? && Mute(S, f.typ.id) {
          MuteComplains(S, f, m.slots[i], u % 8, rest);
        }
        TracksPut(S, t, m, p, before, i, o.slot, o.missing);
        UnmarshalReports(S, t, Put(S, t, m, i, o.slot), Tally(p, f, o.missing), o.rest, before);
      }
    }
  }

  lemma TracksSame(S: Schema, t: nat, m: Msg, next: Msg, p: Progress, before: bool)
    requires t < |S| && |m.slots| == |S[t].fields| && Tracks(S, t, m, p, before) && next.slots == m.slots
    ensures Tracks(S, t, next, p, before)
  {
    hide NestedMissing;
  }

  lemma SafeAt(S: Schema, t: nat, i: nat)
    requires GoodSchema(S) && Safe(S) && t < |S| && i < |S[t].fields|
    ensures GoodField(|S|, S[t].fields[i]) && Countable(S, S[t].fields, i)
  {
    hide Countable;
    assert GoodDescriptor(|S|, S[t]);
  }

  /** A message that lacks a required field outside every group is reported. */
  predicate Reports(S: Schema, t: nat, s: Bytes)
    requires GoodSchema(S) && t < |S|
  {
    var o := Unmarshal(S, t, false, Empty(S, t), Start(S[t]), s);
    o.Done? && Missing(S, t, o.msg) ==> o.missing
  }

  /** A safe schema reports on any bytes. */
  lemma MissingIsReported(S: Schema, t: nat, s: Bytes)
    requires GoodSchema(S) && Safe(S) && t < |S|
    ensures Reports(S, t, s)
  {
    hide Unmarshal, Missing, NestedFrom, Start, Safe;
    TracksStart(S, t, Empty(S, t));
    NothingBelow(S, t);
    if Unmarshal(S, t, false, Empty(S, t), Start(S[t]), s).Done? {
      UnmarshalReports(S, t, Empty(S, t), Start(S[t]), s, NestedFrom(S, t, Empty(S, t), 0));
    }
  }

  // ---------------------------------------------------------------- the message read into does not matter

  predicate SameOutcome(a: Outcome, b: Outcome) {
    if a.Done? then b.Done? && a.missing == b.missing && a.rest == b.rest else a == b
  }

  predicate SameSlotRead(a: SlotRead, b: SlotRead) {
    if a.Got? then b.Got? && a.missing == b.missing && a.rest == b.rest else a == b
  }

  lemma {:induction false} CountAnswers(word: Word, coder: Coder, a: seq<Value>, b: seq<Value>, n: nat, s: Bytes)
    requires Numbers(word, a) && Numbers(word, b)
    ensures var x, y := ReadCount(word, coder, a, n, s), ReadCount(word, coder, b, n, s);
      if x.Ok? then y.Ok? && x.rest == y.rest else x == y
    decreases n
  {
    hide ReadScalar, Narrow;
    if n > 0 && ReadScalar(coder, s).Ok? {
      var v := Num(Narrow(word, ReadScalar(coder, s).value));
      CountAnswers(word, coder, a + [v], b + [v], n - 1, ReadScalar(coder, s).rest);
    }
  }

  lemma {:induction false} UntilAnswers(word: Word, coder: Coder, a: seq<Value>, b: seq<Value>, stop: int, s: Bytes)
    requires Numbers(word, a) && Numbers(word, b)
    ensures var x, y := ReadUntil(word, coder, a, stop, s), ReadUntil(word, coder, b, stop, s);
      if x.Ok? then y.Ok? && x.rest == y.rest else x == y
    decreases |s|
  {
    hide ReadScalar, Narrow;
    if |s| > stop && ReadScalar(coder, s).Ok? {
      var v := Num(Narrow(word, ReadScalar(coder, s).value));
      UntilAnswers(word, coder, a + [v], b + [v], stop, ReadScalar(coder, s).rest);
    }
  }

  lemma PackedAnswers(word: Word, coder: Coder, a: seq<Value>, b: seq<Value>, s: Bytes)
    requires Numbers(word, a) && Numbers(word, b)
    ensures var x, y := ReadPacked(word, coder, a, s), ReadPacked(word, coder, b, s);
      if x.Ok? then y.Ok? && x.rest == y.rest else x == y
  {
    hide ReadVarint, ReadCount, ReadUntil;
    if ReadVarint(s).Ok? {
      var n, rest := ReadVarint(s).value, ReadVarint(s).rest;
      CountAnswers(word, coder, a, b, if n >= TWO_63 then 0 else n, rest);
      UntilAnswers(word, coder, a, b, |rest| - n, rest);
    }
  }

  lemma SlotValues(S: Schema, f: Field, slot: Slot)
    requires ShapedSlot(S, f, slot)
    ensures f.typ.Scalar? ==> Numbers(f.typ.word, slot.values)
    ensures f.typ.Message? || f.typ.Group? ==>
      forall j :: 0 <= j < |slot.values| ==> slot.values[j].Sub? && Shaped(S, f.typ.id, slot.values[j].m)
  {
    hide Shaped;
    assert forall j :: 0 <= j < |slot.values| ==> ShapedValue(S, f.typ, slot.values[j]);
  }

  /** How reading one field ends does not depend on what the slot held. */
  lemma {:induction false} SlotAnswers(S: Schema, f: Field, a: Slot, b: Slot, wire: nat, s: Bytes)
    requires GoodSchema(S) && GoodField(|S|, f) && ShapedSlot(S, f, a) && ShapedSlot(S, f, b)
    ensures SameSlotRead(DecodeSlot(S, f, a, wire, s), DecodeSlot(S, f, b, wire, s))
    decreases |s|, 2
  {
    hide Unmarshal, ReadPacked, ReadScalar, ReadDelimited, Shaped, ShapedSlot, GoodSchema, Start, Base, Store, Narrow;
    SlotValues(S, f, a);
    SlotValues(S, f, b);
    if !TakesWire(f, wire) {
      if Packable(f) {
        PackedAnswers(f.typ.word, f.typ.coder, a.values, b.values, s);
      }
    } else if f.typ.Message? && ReadDelimited(s).Ok? {
      var id := f.typ.id;
      UnmarshalAnswers(S, id, false, Base(S, id, f.mode, a.values), Base(S, id, f.mode, b.values), Start(S[id]), ReadDelimited(s).value);
    } else if f.typ.Group? {
      var id := f.typ.id;
      UnmarshalAnswers(S, id, true, Base(S, id, f.mode, a.values), Base(S, id, f.mode, b.values), Start(S[id]), s);
    }
  }

  /** How reading a message ends does not depend on the message read into. */
  lemma {:induction false} UnmarshalAnswers(S: Schema, t: nat, g: bool, a: Msg, b: Msg, p: Progress, s: Bytes)
    requires GoodSchema(S) && Shaped(S, t, a) && Shaped(S, t, b)
    ensures SameOutcome(Unmarshal(S, t, g, a, p, s), Unmarshal(S, t, g, b, p, s))
    decreases |s|, 1
  {
    hide ReadVarint, Skip, Shaped, ShapedSlot, DecodeSlot, Tally, GoodSchema, GoodField, FindField;
    TypeKnown(S, t, a);
    TypeKnown(S, t, b);
    if s != [] && ReadVarint(s).Ok? {
      var u, rest := ReadVarint(s).value, ReadVarint(s).rest;
      if u % 8 != WIRE_END_GROUP && u / 8 != 0 {
        var found := FindField(S[t].fields, u / 8, 0);
        if found.None? {
          if Skip(rest, u % 8).Ok? {
            var after := Skip(rest, u % 8).rest;
            UnmarshalAnswers(S, t, g, Remember(S, t, a, u, rest), Remember(S, t, b, u, rest), p, after);
          }
        } else {
          var i := found.value;
          var f := S[t].fields[i];
          ShapedAt(S, t, a, i);
          ShapedAt(S, t, b, i);
          SlotAnswers(S, f, a.slots[i], b.slots[i], u % 8, rest);
          var x, y := DecodeSlot(S, f, a.slots[i], u % 8, rest), DecodeSlot(S, f, b.slots[i], u % 8, rest);
          if x.Got? {
            UnmarshalAnswers(S, t, g, Put(S, t, a, i, x.slot), Put(S, t, b, i, y.slot), Tally(p, f, x.missing), x.rest);
          }
        }
      }
    }
  }

  /** A message whose type is mute is read with a complaint, merged or not. */
  lemma MuteComplains(S: Schema, f: Field, slot: Slot, wire: nat, s: Bytes)
    requires GoodSchema(S) && GoodField(|S|, f) && ShapedSlot(S, f, slot)
    requires f.typ.Message? && Mute(S, f.typ.id) && DecodeSlot(S, f, slot, wire, s).Got?
    ensures DecodeSlot(S, f, slot, wire, s).missing
  {
    hide Unmarshal, ReadPacked, ReadScalar, ReadVarint, Shaped, GoodSchema, Start, Base;
    SlotValues(S, f, slot);
    var id, raw := f.typ.id, ReadDelimited(s).value;
    UnmarshalAnswers(S, id, false, Base(S, id, f.mode, slot.values), Empty(S, id), Start(S[id]), raw);
    assert |raw| < TWO_63 && !Quiet(S, id, raw);
  }

  // ---------------------------------------------------------------- schemas that can be fooled

  /** The field can be read without a complaint; a message needs bytes that decode so. */
  predicate Readable(S: Schema, f: Field, raw: Bytes)
    requires GoodSchema(S) && GoodField(|S|, f)
  {
    f.typ.Message? ==> |raw| < TWO_63 && Quiet(S, f.typ.id, raw)
  }

  function Wire(typ: Type): (w: nat)
    ensures w < 8 && w != WIRE_END_GROUP
  {
    if typ.Group? then WIRE_START_GROUP else WireType(typ)
  }

  /** One reading of the field: a zero, an empty text or group, or the given message. */
  function OneReading(f: Field, raw: Bytes): Bytes {
    match f.typ
    case Scalar(word, coder) => WriteScalar(coder, Widen(word, 0))
    case Text => Delimited([])
    case Message(_) => Delimited(raw)
    case Group(_) => Tagged(f.tag, WIRE_END_GROUP)
  }

  lemma ReadingReads(S: Schema, f: Field, slot: Slot, raw: Bytes, rest: Bytes)
    requires GoodSchema(S) && GoodField(|S|, f) && ShapedSlot(S, f, slot) && Readable(S, f, raw)
    ensures var o := DecodeSlot(S, f, slot, Wire(f.typ), OneReading(f, raw) + rest);
      o.Got? && !o.missing && o.rest == rest
  {
    hide Unmarshal, ReadPacked, ReadScalar, WriteScalar, ReadDelimited, Delimited, Shaped, GoodSchema, Start, Base, Widen, Narrow, Tagged;
    SlotValues(S, f, slot);
    match f.typ
    case Scalar(word, coder) => ScalarRoundTrip(word, coder, 0, rest);
    case Text => DelimitedRoundTrip([], rest);
    case Message(id) =>
      DelimitedRoundTrip(raw, rest);
      UnmarshalAnswers(S, id, false, Base(S, id, f.mode, slot.values), Empty(S, id), Start(S[id]), raw);
    case Group(id) =>
      EndStep(S, id, Base(S, id, f.mode, slot.values), Start(S[id]), f.tag, rest);
  }

  function Times(n: nat, b: Bytes): Bytes {
    if n == 0 then [] else b + Times(n - 1, b)
  }

  function Chunk(f: Field, raw: Bytes): Bytes {
    Tagged(f.tag, Wire(f.typ)) + OneReading(f, raw)
  }

  /** A field beyond the bitmap takes one off the counter each time it is read, and touches no other. */
  lemma {:induction false} TimesRead(S: Schema, t: nat, m: Msg, p: Progress, i: nat, raw: Bytes, n: nat)
    requires GoodSchema(S) && Shaped(S, t, m) && t < |S| && |m.slots| == |S[t].fields| && i < |m.slots|
    requires GoodField(|S|, S[t].fields[i]) && Readable(S, S[t].fields[i], raw)
    requires S[t].fields[i].mode.Required? && S[t].fields[i].tag > BITMAP_TAGS
    ensures var o := Unmarshal(S, t, false, m, p, Times(n, Chunk(S[t].fields[i], raw)));
      && o.Done? && o.missing == (p.missing || p.required > n)
      && |o.msg.slots| == |m.slots|
      && forall j :: 0 <= j < |m.slots| && j != i ==> o.msg.slots[j] == m.slots[j]
    decreases n
  {
    hide Shaped, ShapedSlot, DecodeSlot, GoodSchema, GoodField, Readable, OneReading, Tagged, Varint, ReadVarint, Skip, FindField;
    if n > 0 {
      hide Unmarshal;
      var f := S[t].fields[i];
      var more := Times(n - 1, Chunk(f, raw));
      assert Times(n, Chunk(f, raw)) == Tagged(f.tag, Wire(f.typ)) + (OneReading(f, raw) + more);
      ShapedAt(S, t, m, i);
      KnownStep(S, t, false, m, p, i, Wire(f.typ), OneReading(f, raw) + more);
      ReadingReads(S, f, m.slots[i], raw, more);
      var o := DecodeSlot(S, f, m.slots[i], Wire(f.typ), OneReading(f, raw) + more);
      TimesRead(S, t, Put(S, t, m, i, o.slot), Tally(p, f, false), i, raw, n - 1);
    }
  }

  /** A field that is not counted right, read as often as there are required fields, stands in for all of them. */
  lemma FooledBy(S: Schema, t: nat, i: nat) returns (s: Bytes)
    requires GoodSchema(S) && t < |S| && i < |S[t].fields| && GoodField(|S|, S[t].fields[i])
    requires !Countable(S, S[t].fields, i)
    ensures !Reports(S, t, s)
  {
    hide Unmarshal, Shaped, Quiet, OneReading;
    var f, n := S[t].fields[i], RequiredFrom(S[t].fields, 0);
    var raw: Bytes := [];
    if f.typ.Message? {
      raw :| |raw| < TWO_63 && Quiet(S, f.typ.id, raw);
    }
    s := Times(n, Chunk(f, raw));
    TimesRead(S, t, Empty(S, t), Start(S[t]), i, raw, n);
    var o := Unmarshal(S, t, false, Empty(S, t), Start(S[t]), s);
    var j :| 0 <= j < |S[t].fields| && j != i && S[t].fields[j].mode.Required?;
    assert Unset(S[t].fields[j], o.msg.slots[j]);
  }

  /** On every message type and any bytes a missing required field is reported, exactly for the safe schemas. */
  lemma ReportsIff(S: Schema)
    requires GoodSchema(S)
    ensures (forall t, s :: 0 <= t < |S| ==> Reports(S, t, s)) <==> Safe(S)
  {
    hide Reports, Countable;
    if Safe(S) {
      forall t, s | 0 <= t < |S| ensures Reports(S, t, s) {
        MissingIsReported(S, t, s);
      }
    } else {
      var t, i :| 0 <= t < |S| && 0 <= i < |S[t].fields| && !Countable(S, S[t].fields, i);
      assert GoodDescriptor(|S|, S[t]);
      var s := FooledBy(S, t, i);
    }
  }

  // ---------------------------------------------------------------- large tags

  /** Two required booleans beyond the bitmap. */
  function LargeField(tag: nat): Field {
    Field(tag, Required, Scalar(Bool, AsVarint))
  }

  const LARGE: Schema := [Descriptor([LargeField(65), LargeField(66)], true)]

  /** The first of them, set. */
  function LargeBytes(rest: Bytes): Bytes {
    Tagged(65, WIRE_VARINT) + (Varint(1) + rest)
  }

  lemma LargeStep(m: Msg, p: Progress, rest: Bytes)
    requires GoodSchema(LARGE) && Shaped(LARGE, 0, m)
    ensures var slot := Slot([Num(1)]);
      && ShapedSlot(LARGE, LargeField(65), slot) && |m.slots| == 2
      && Unmarshal(LARGE, 0, false, m, p, LargeBytes(rest))
         == Unmarshal(LARGE, 0, false, Put(LARGE, 0, m, 0, slot), p.(required := p.required - 1, missing := p.missing), rest)
  {
    hide Unmarshal, ReadVarint, Varint, Shaped;
    TypeKnown(LARGE, 0, m);
    ShapedAt(LARGE, 0, m, 0);
    VarintRoundTrip(1, rest);
    KnownStep(LARGE, 0, false, m, p, 0, WIRE_VARINT, Varint(1) + rest);
    assert ShapedValue(LARGE, LargeField(65).typ, Num(1));
    assert DecodeSlot(LARGE, LargeField(65), m.slots[0], WIRE_VARINT, Varint(1) + rest) == Got(Slot([Num(1)]), false, rest);
  }

  /** A required field with a tag above 64 that is sent twice stands in for another that is never sent. */
  lemma LargeTagFoolsCounter()
    ensures GoodSchema(LARGE)
    ensures var o := Unmarshal(LARGE, 0, false, Empty(LARGE, 0), Start(LARGE[0]), LargeBytes(LargeBytes([])));
      o.Done? && !o.missing && Missing(LARGE, 0, o.msg)
  {
    hide LargeBytes, Shaped, ReadVarint, Skip, DecodeSlot;
    assert GoodSchema(LARGE) by { assert GoodDescriptor(1, LARGE[0]); }
    var m, p := Empty(LARGE, 0), Start(LARGE[0]);
    assert RequiredFrom(LARGE[0].fields, 2) == 0 && RequiredFrom(LARGE[0].fields, 1) == 1;
    assert p == Progress(2, {}, false);
    LargeStep(m, p, LargeBytes([]));
    var m1, p1 := Put(LARGE, 0, m, 0, Slot([Num(1)])), p.(required := 1);
    LargeStep(m1, p1, []);
    var m2, p2 := Put(LARGE, 0, m1, 0, Slot([Num(1)])), p.(required := 0);
    assert Unmarshal(LARGE, 0, false, m2, p2, []) == Done(m2, false, []);
    assert Unset(LARGE[0].fields[1], m2.slots[1]);
  }
}
