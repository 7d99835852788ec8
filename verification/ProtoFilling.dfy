/**
 * Which message types decode without a complaint at all, read off the schema:
 * a type is filled when each required field can be, or one beyond the bitmap
 * can be and is sent often enough. A type that is never filled is mute, and
 * one that is filled in fewer than 2^63 bytes is not.
 */
module ProtoFilling {
  import opened Wrappers
  import opened ProtoWire
  import opened ProtoMessage
  import opened ProtoDecode
  import opened ProtoRoundTrip
  import opened ProtoRequired

  predicate FillsField(S: Schema, f: Field, d: nat)
    decreases d, 1
  {
    f.typ.Message? ==> Fills(S, f.typ.id, d)
  }

  predicate FillsAll(S: Schema, fields: seq<Field>, d: nat)
    decreases d, 2
  {
    forall i :: 0 <= i < |fields| && fields[i].mode.Required? ==> FillsField(S, fields[i], d)
  }

  predicate IsLarge(f: Field) {
    f.mode.Required? && f.tag > BITMAP_TAGS
  }

  predicate FillsLarge(S: Schema, fields: seq<Field>, d: nat)
    decreases d, 2
  {
    exists i :: 0 <= i < |fields| && IsLarge(fields[i]) && FillsField(S, fields[i], d)
  }

  /** The type can be filled by messages nested less than `d` deep. */
  predicate Fills(S: Schema, t: nat, d: nat)
    decreases d, 0
  {
    d > 0 && t < |S| && (FillsAll(S, S[t].fields, d - 1) || FillsLarge(S, S[t].fields, d - 1))
  }

  lemma {:induction false} FillsDeeper(S: Schema, t: nat, d: nat)
    requires Fills(S, t, d)
    ensures Fills(S, t, d + 1)
    decreases d
  {
    var fields := S[t].fields;
    forall i | 0 <= i < |fields| && FillsField(S, fields[i], d - 1) ensures FillsField(S, fields[i], d) {
      if fields[i].typ.Message? {
        FillsDeeper(S, fields[i].typ.id, d - 1);
      }
    }
    if FillsLarge(S, fields, d - 1) {
      var i :| 0 <= i < |fields| && IsLarge(fields[i]) && FillsField(S, fields[i], d - 1);
      assert IsLarge(fields[i]) && FillsField(S, fields[i], d);
    }
  }

  lemma {:induction false} FillsWithin(S: Schema, t: nat, d: nat, e: nat)
    requires Fills(S, t, d) && d <= e
    ensures Fills(S, t, e)
    decreases e - d
  {
    hide Fills;
    if d < e {
      FillsDeeper(S, t, d);
      FillsWithin(S, t, d + 1, e);
    }
  }

  // ---------------------------------------------------------------- bytes that fill a type

  ghost function FillingOf(S: Schema, f: Field, d: nat): Bytes
    requires FillsField(S, f, d)
    decreases d, 1, 0
  {
    if f.typ.Message? then Filling(S, f.typ.id, d) else []
  }

  /** Every required field from the `i`-th on, once. */
  ghost function FillingFrom(S: Schema, fields: seq<Field>, d: nat, i: nat): Bytes
    requires i <= |fields| && FillsAll(S, fields, d)
    decreases d, 2, |fields| - i
  {
    if i == |fields| then []
    else if fields[i].mode.Required? then Chunk(fields[i], FillingOf(S, fields[i], d)) + FillingFrom(S, fields, d, i + 1)
    else FillingFrom(S, fields, d, i + 1)
  }

  /** Some field beyond the bitmap that can be filled. */
  ghost function Large(S: Schema, fields: seq<Field>, d: nat): (i: nat)
    requires FillsLarge(S, fields, d)
    ensures i < |fields| && IsLarge(fields[i]) && FillsField(S, fields[i], d)
  {
    var i: nat :| i < |fields| && IsLarge(fields[i]) && FillsField(S, fields[i], d);
    i
  }

  ghost function Filling(S: Schema, t: nat, d: nat): Bytes
    requires Fills(S, t, d)
    decreases d, 0, 0
  {
    if FillsAll(S, S[t].fields, d - 1) then FillingFrom(S, S[t].fields, d - 1, 0)
    else
      var i := Large(S, S[t].fields, d - 1);
      Times(RequiredFrom(S[t].fields, 0), Chunk(S[t].fields[i], FillingOf(S, S[t].fields[i], d - 1)))
  }

  lemma ChunkLonger(f: Field, raw: Bytes)
    ensures f.typ.Message? ==> |Chunk(f, raw)| >= |raw|
  {
    hide Tagged, Varint;
  }

  lemma {:induction false} RequiredSome(fields: seq<Field>, i: nat, k: nat)
    requires i <= k < |fields| && fields[k].mode.Required?
    ensures RequiredFrom(fields, i) > 0
    decreases k - i
  {
    if i < k {
      RequiredSome(fields, i + 1, k);
    }
  }

  lemma {:induction false} FillingQuiet(S: Schema, t: nat, d: nat)
    requires GoodSchema(S) && Fills(S, t, d) && |Filling(S, t, d)| < TWO_63
    ensures Quiet(S, t, Filling(S, t, d))
    decreases d, 2
  {
    hide Unmarshal, Shaped, Chunk;
    var fields := S[t].fields;
    assert GoodDescriptor(|S|, S[t]);
    if FillsAll(S, fields, d - 1) {
      FillingReads(S, t, d - 1, Empty(S, t), Start(S[t]), 0);
    } else {
      var i := Large(S, fields, d - 1);
      var f, raw, n := fields[i], FillingOf(S, fields[i], d - 1), RequiredFrom(fields, 0);
      RequiredSome(fields, 0, i);
      assert |Times(n, Chunk(f, raw))| >= |Chunk(f, raw)|;
      FieldReadable(S, f, d - 1);
      TimesRead(S, t, Empty(S, t), Start(S[t]), i, raw, n);
    }
  }

  lemma {:induction false} FieldReadable(S: Schema, f: Field, d: nat)
    requires GoodSchema(S) && GoodField(|S|, f) && FillsField(S, f, d)
    requires |Chunk(f, FillingOf(S, f, d))| < TWO_63
    ensures Readable(S, f, FillingOf(S, f, d))
    decreases d, 3
  {
    hide Quiet, Chunk;
    if f.typ.Message? {
      ChunkLonger(f, FillingOf(S, f, d));
      FillingQuiet(S, f.typ.id, d);
    }
  }

  lemma {:induction false} FillingReads(S: Schema, t: nat, d: nat, m: Msg, p: Progress, i: nat)
    requires GoodSchema(S) && Shaped(S, t, m) && t < |S| && |m.slots| == |S[t].fields|
    requires i <= |S[t].fields| && FillsAll(S, S[t].fields, d)
    requires |FillingFrom(S, S[t].fields, d, i)| < TWO_63
    requires forall k :: i <= k < |S[t].fields| ==> S[t].fields[k].tag !in p.seen
    requires !p.missing && p.required == RequiredFrom(S[t].fields, i)
    ensures var o := Unmarshal(S, t, false, m, p, FillingFrom(S, S[t].fields, d, i)); o.Done? && !o.missing
    decreases d, 4, |S[t].fields| - i
  {
    hide Shaped, ShapedSlot, DecodeSlot, GoodSchema, GoodField, Readable, OneReading, Tagged, Varint, ReadVarint, Skip, FindField;
    var fields := S[t].fields;
    if i < |fields| {
      hide Unmarshal;
      var f := fields[i];
      if f.mode.Required? {
        var raw, more := FillingOf(S, f, d), FillingFrom(S, fields, d, i + 1);
        assert Chunk(f, raw) + more == Tagged(f.tag, Wire(f.typ)) + (OneReading(f, raw) + more);
        ShapedAt(S, t, m, i);
        FieldReadable(S, f, d);
        KnownStep(S, t, false, m, p, i, Wire(f.typ), OneReading(f, raw) + more);
        ReadingReads(S, f, m.slots[i], raw, more);
        var o := DecodeSlot(S, f, m.slots[i], Wire(f.typ), OneReading(f, raw) + more);
        assert forall k :: i < k < |fields| ==> fields[k].tag != f.tag;
        FillingReads(S, t, d, Put(S, t, m, i, o.slot), Tally(p, f, false), i + 1);
      } else {
        FillingReads(S, t, d, m, p, i + 1);
      }
    }
  }

  // ---------------------------------------------------------------- bytes that decode without a complaint

  lemma FieldWithin(S: Schema, f: Field, d: nat, e: nat)
    requires FillsField(S, f, d) && d <= e
    ensures FillsField(S, f, e)
  {
    hide Fills;
    if f.typ.Message? {
      FillsWithin(S, f.typ.id, d, e);
    }
  }

  lemma ComplaintKept(p: Progress, f: Field)
    ensures Tally(p, f, true).missing
  {
  }

  /** A complaint is never taken back. */
  lemma {:induction false} ComplaintStays(S: Schema, t: nat, m: Msg, p: Progress, s: Bytes)
    requires GoodSchema(S) && Shaped(S, t, m) && p.missing
    requires Unmarshal(S, t, false, m, p, s).Done?
    ensures Unmarshal(S, t, false, m, p, s).missing
    decreases |s|
  {
    hide ReadVarint, Skip, Shaped, ShapedSlot, DecodeSlot, GoodSchema, GoodField, FindField;
    TypeKnown(S, t, m);
    if s != [] {
      var u, rest := ReadVarint(s).value, ReadVarint(s).rest;
      var found := FindField(S[t].fields, u / 8, 0);
      if found.None? {
        ComplaintStays(S, t, Remember(S, t, m, u, rest), p, Skip(rest, u % 8).rest);
      } else {
        ShapedAt(S, t, m, found.value);
        var f := S[t].fields[found.value];
        var o := DecodeSlot(S, f, m.slots[found.value], u % 8, rest);
        ComplaintStays(S, t, Put(S, t, m, found.value, o.slot), Tally(p, f, o.missing), o.rest);
      }
    }
  }

  /** Unless a field beyond the bitmap can be filled, the counter is right and every field seen can be filled. */
  predicate Earned(S: Schema, fields: seq<Field>, p: Progress, d: nat) {
    FillsLarge(S, fields, d) ||
    (p.required == Unseen(fields, p.seen, 0)
     && forall i :: 0 <= i < |fields| && fields[i].mode.Required? && fields[i].tag in p.seen ==> FillsField(S, fields[i], d))
  }

  lemma EarnedStart(S: Schema, t: nat, d: nat)
    requires t < |S|
    ensures Earned(S, S[t].fields, Start(S[t]), d)
  {
    hide FillsField, FillsLarge;
    UnseenAtStart(S[t].fields, 0);
  }

  lemma EarnedEnd(S: Schema, fields: seq<Field>, p: Progress, d: nat)
    requires Earned(S, fields, p, d) && p.required <= 0
    ensures FillsAll(S, fields, d) || FillsLarge(S, fields, d)
  {
    hide FillsField, FillsLarge;
    forall i | 0 <= i < |fields| && fields[i].mode.Required? && fields[i].tag !in p.seen
      ensures FillsLarge(S, fields, d)
    {
      UnseenSome(fields, p.seen, 0, i);
    }
  }

  lemma EarnedStep(S: Schema, desc: Descriptor, p: Progress, d: nat, i: nat)
    requires GoodDescriptor(|S|, desc) && i < |desc.fields| && Earned(S, desc.fields, p, d)
    requires desc.fields[i].mode.Required? ==> FillsField(S, desc.fields[i], d)
    ensures Earned(S, desc.fields, Tally(p, desc.fields[i], false), d)
  {
    hide FillsField;
    var f := desc.fields[i];
    if f.mode.Required? && f.tag !in p.seen {
      UnseenStep(|S|, desc, p.seen, i, 0);
      assert forall k :: 0 <= k < |desc.fields| && desc.fields[k].tag == f.tag ==> k == i;
    }
    assert IsLarge(f) ==> FillsLarge(S, desc.fields, d);
  }

  lemma {:induction false} SlotFills(S: Schema, f: Field, slot: Slot, wire: nat, s: Bytes)
    requires GoodSchema(S) && GoodField(|S|, f) && ShapedSlot(S, f, slot)
    requires var o := DecodeSlot(S, f, slot, wire, s); o.Got? && !o.missing
    ensures FillsField(S, f, |s|)
    decreases |s|, 1
  {
    hide Unmarshal, ReadPacked, ReadScalar, ReadDelimited, Shaped, GoodSchema, Start, Base, Fills;
    if f.typ.Message? {
      SlotValues(S, f, slot);
      var id, raw := f.typ.id, ReadDelimited(s).value;
      EarnedStart(S, id, |raw|);
      UnmarshalFills(S, id, Base(S, id, f.mode, slot.values), Start(S[id]), raw, |raw|);
      FillsWithin(S, id, |raw| + 1, |s|);
    }
  }

  lemma {:induction false} UnmarshalFills(S: Schema, t: nat, m: Msg, p: Progress, s: Bytes, d: nat)
    requires GoodSchema(S) && Shaped(S, t, m) && t < |S| && |s| <= d && Earned(S, S[t].fields, p, d)
    requires var o := Unmarshal(S, t, false, m, p, s); o.Done? && !o.missing
    ensures Fills(S, t, d + 1)
    decreases |s|, 0
  {
    hide ReadVarint, Skip, Shaped, ShapedSlot, DecodeSlot, Tally, GoodSchema, GoodField, FindField, Earned, FillsField;
    var fields := S[t].fields;
    if s == [] {
      EarnedEnd(S, fields, p, d);
    } else {
      var u, rest := ReadVarint(s).value, ReadVarint(s).rest;
      var found := FindField(fields, u / 8, 0);
      TypeKnown(S, t, m);
      if found.None? {
        UnmarshalFills(S, t, Remember(S, t, m, u, rest), p, Skip(rest, u % 8).rest, d);
      } else {
        var i := found.value;
        var f := fields[i];
        ShapedAt(S, t, m, i);
        var o := DecodeSlot(S, f, m.slots[i], u % 8, rest);
        if o.missing {
          ComplaintKept(p, f);
          ComplaintStays(S, t, Put(S, t, m, i, o.slot), Tally(p, f, true), o.rest);
        }
        SlotFills(S, f, m.slots[i], u % 8, rest);
        FieldWithin(S, f, |rest|, d);
        EarnedStep(S, S[t], p, d, i);
        UnmarshalFills(S, t, Put(S, t, m, i, o.slot), Tally(p, f, false), o.rest, d);
      }
    }
  }

  /** Bytes that decode without a complaint fill their type. */
  lemma QuietFills(S: Schema, t: nat, s: Bytes)
    requires GoodSchema(S) && t < |S| && Quiet(S, t, s)
    ensures Fills(S, t, |s| + 1)
  {
    hide Unmarshal, Shaped, Fills;
    EarnedStart(S, t, |s|);
    UnmarshalFills(S, t, Empty(S, t), Start(S[t]), s, |s|);
  }

  /**
   * A type is mute when it is never filled; a mute type is filled, if at all,
   * only by bytes too long to be announced.
   */
  lemma MuteIsUnfilled(S: Schema, t: nat)
    requires GoodSchema(S) && t < |S|
    ensures (forall d :: !Fills(S, t, d)) ==> Mute(S, t)
    ensures Mute(S, t) ==> forall d :: Fills(S, t, d) ==> |Filling(S, t, d)| >= TWO_63
  {
    hide Fills, Filling, Quiet;
    forall s | Quiet(S, t, s) ensures Fills(S, t, |s| + 1) {
      QuietFills(S, t, s);
    }
    forall d | Fills(S, t, d) && |Filling(S, t, d)| < TWO_63 ensures Quiet(S, t, Filling(S, t, d)) {
      FillingQuiet(S, t, d);
    }
  }
}
