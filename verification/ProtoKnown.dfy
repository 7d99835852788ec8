/**
 * What stands in the bytes of an encoding: the signed number of an integer
 * field, whatever its width, and the very bytes of values of every type.
 */
module ProtoKnown {
  import opened Wrappers
  import opened ProtoWire
  import opened ProtoMessage

  // ---------------------------------------------------------------- signed numbers

  /** The number a word stands for. */
  ghost function Meaning(word: Word, n: nat): int
    requires InRange(word, n)
  {
    match word
    case Bool => n
    case Uint32 => n
    case Int32 => Signed(n, TWO_31)
    case Int64 => Signed(n, TWO_63)
  }

  /** The 64 bits written for a word stand for the same signed number. */
  lemma WidenMeans(word: Word, n: nat)
    requires InRange(word, n)
    ensures Signed(Widen(word, n), TWO_63) == Meaning(word, n)
  {
  }

  /** From 64 bits a word keeps the number they stand for when it has room for it, and else what is left modulo its size. */
  lemma NarrowMeans(word: Word, u: Word64)
    ensures word.Int32? ==> -(TWO_31 as int) <= Signed(u, TWO_63) < TWO_31 ==> Meaning(word, Narrow(word, u)) == Signed(u, TWO_63)
    ensures word.Uint32? ==> u < TWO_32 ==> Narrow(word, u) == u
    ensures word.Int64? ==> Narrow(word, u) == u
    ensures word.Int32? || word.Uint32? ==> (u - Narrow(word, u)) % TWO_32 == 0
    ensures word.Bool? ==> (Narrow(word, u) == 0 <==> u == 0)
  {
  }

  /** Fields of 32 and 64 bits write the same bytes for the same number, so a peer may read either as the other. */
  lemma SameNumberSameBytes(a: Word, b: Word, m: nat, n: nat)
    requires InRange(a, m) && InRange(b, n) && Meaning(a, m) == Meaning(b, n)
    ensures WriteScalar(AsVarint, Widen(a, m)) == WriteScalar(AsVarint, Widen(b, n))
    ensures WriteScalar(AsZigzag64, Widen(a, m)) == WriteScalar(AsZigzag64, Widen(b, n))
  {
    WidenMeans(a, m);
    WidenMeans(b, n);
    hide Varint;
  }

  lemma {:induction false} LongVarint(x: nat, k: nat)
    requires Pow128(k) <= x < Pow128(k + 1)
    ensures |Varint(x)| == k + 1
    decreases k
  {
    assert Pow128(k + 1) == 128 * Pow128(k);
    if k == 0 {
      assert Pow128(0) == 1;
    } else {
      assert Pow128(k) == 128 * Pow128(k - 1);
      Quotients(x, Pow128(k - 1));
      LongVarint(x / 128, k - 1);
    }
  }

  lemma Quotients(x: nat, p: nat)
    requires 128 * p <= x < 128 * (128 * p)
    ensures p <= x / 128 < 128 * p
  {
  }

  /** A negative number takes ten bytes, of a 32-bit field too. */
  lemma NegativeTakesTen(word: Word, n: nat)
    requires InRange(word, n) && Meaning(word, n) < 0
    ensures |WriteScalar(AsVarint, Widen(word, n))| == 10
  {
    WidenMeans(word, n);
    TenBytesHold64Bits();
    NineBytes();
    LongVarint(Widen(word, n), 9);
  }

  lemma NineBytes()
    ensures Pow128(9) == TWO_63
  {
    assert Pow128(1) == 128;
    assert Pow128(3) == 128 * 128 * Pow128(1);
    assert Pow128(5) == 128 * 128 * Pow128(3);
    assert Pow128(7) == 128 * 128 * Pow128(5);
    assert Pow128(9) == 128 * 128 * Pow128(7);
  }

  /** The descriptor of a message with one field of that kind. */
  function One(f: Field): Schema { [Descriptor([f], false)] }

  /** In messages of one field, alone or repeated or packed, the width of an integer field cannot be told from the bytes. */
  lemma WidthIsInvisible(tag: nat, mode: Label, m: nat, n: nat)
    requires 1 <= tag <= MAX_TAG && InRange(Int32, m) && InRange(Int64, n) && Meaning(Int32, m) == Meaning(Int64, n)
    requires mode.Implicit? ==> m != 0
    ensures var f, g := Field(tag, mode, Scalar(Int32, AsVarint)), Field(tag, mode, Scalar(Int64, AsVarint));
      var a, b := Msg([Slot([Num(m)])], []), Msg([Slot([Num(n)])], []);
      && GoodSchema(One(f)) && GoodSchema(One(g)) && Shaped(One(f), 0, a) && Shaped(One(g), 0, b)
      && Encode(One(f), 0, a) == Encode(One(g), 0, b)
      && (Meaning(Int32, m) < 0 ==> |Encode(One(f), 0, a)| >= 11)
  {
    var f, g := Field(tag, mode, Scalar(Int32, AsVarint)), Field(tag, mode, Scalar(Int64, AsVarint));
    OneEncoded(f, m);
    OneEncoded(g, n);
    SameNumberSameBytes(Int32, Int64, m, n);
    if Meaning(Int32, m) < 0 { NegativeTakesTen(Int32, m); }
  }

  /** The bytes of a field with one value. */
  function OneBytes(tag: nat, mode: Label, payload: Bytes, wire: nat): Bytes {
    if mode.Packed? then Tagged(tag, WIRE_BYTES) + Delimited(payload) else Tagged(tag, wire) + payload
  }

  lemma OneEncoded(f: Field, n: nat)
    requires 1 <= f.tag <= MAX_TAG && f.typ.Scalar? && f.typ.coder == AsVarint && !f.typ.word.Bool?
    requires InRange(f.typ.word, n) && (f.mode.Implicit? ==> n != 0)
    ensures var a := Msg([Slot([Num(n)])], []);
      && GoodSchema(One(f)) && Shaped(One(f), 0, a)
      && Encode(One(f), 0, a) == OneBytes(f.tag, f.mode, WriteScalar(AsVarint, Widen(f.typ.word, n)), WIRE_VARINT)
  {
    hide WriteScalar, Widen, Tagged, Delimited;
    var S, a := One(f), Msg([Slot([Num(n)])], []);
    assert GoodSchema(S) by { assert GoodDescriptor(1, S[0]); }
    assert ShapedValue(S, f.typ, Num(n));
    assert ShapedSlot(S, f, a.slots[0]);
    assert Shaped(S, 0, a);
    assert EncodeSlots(S, 0, a, 1) == [];
    assert EncodeSlots(S, 0, a, 0) == EncodeSlot(S, f, a.slots[0]) + [];
    assert Encode(S, 0, a) == EncodeSlots(S, 0, a, 0) + [];
    var w := WriteScalar(AsVarint, Widen(f.typ.word, n));
    assert w + [] == w;
    if f.mode.Packed? {
      assert PackedBody(f.typ.word, f.typ.coder, [Num(n)], 1) == [];
      assert PackedBody(f.typ.word, f.typ.coder, [Num(n)], 0) == w;
      assert EncodeSlot(S, f, a.slots[0]) == Tagged(f.tag, WIRE_BYTES) + Delimited(w);
    } else {
      assert EncodeValue(S, f, Num(n)) == Tagged(f.tag, WIRE_VARINT) + w;
      assert EncodeValues(S, f, a.slots[0], 1) == [];
      assert EncodeValues(S, f, a.slots[0], 0) == EncodeValue(S, f, Num(n)) + [];
      assert EncodeSlot(S, f, a.slots[0]) == EncodeValue(S, f, Num(n));
    }
  }
}
