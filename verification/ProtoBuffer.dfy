/**
 * The write side of the protocol buffer `Buffer`: bytes appended to a backing
 * array that is reallocated when full, with the length of a nested message
 * patched in behind its body. Every writer is proved to append exactly the
 * encoding, and every size calculation to count exactly its bytes.
 */
module ProtoBuffer {
  import opened Wrappers
  import opened ProtoWire
  import opened ProtoMessage

  /** The tag code worked out once per field, into a fixed buffer of eight bytes. */
  method TagCode(tag: nat, wire: nat) returns (code: Bytes)
    requires tag <= MAX_TAG && wire < 8
    ensures code == Tagged(tag, wire)
  {
    hide Pow128, Varint;
    FiveBytesHold32Bits();
    var tagbuf := new Byte[8];
    var x0 := tag * 8 + wire;
    var x: nat := x0;
    var i := 0;
    VarintLength(x0, 5);
    VarintStep(x);
    while x > 127
      invariant 0 <= i && i + |Varint(x)| == |Varint(x0)|
      invariant tagbuf[..i] + Varint(x) == Varint(x0)
      decreases x
    {
      ghost var before := tagbuf[..i];
      VarintStep(x);
      VarintStep(x / 128);
      tagbuf[i] := x % 128 + 128;
      assert tagbuf[..i + 1] == before + [x % 128 + 128];
      Regroup(before, [x % 128 + 128], Varint(x / 128));
      x := x / 128;
      i := i + 1;
    }
    VarintStep(x);
    ghost var before := tagbuf[..i];
    tagbuf[i] := x;
    code := tagbuf[..i + 1];
    assert code == before + [x];
  }

  lemma VarintStep(x: nat)
    ensures x >= 128 ==> Varint(x) == [x % 128 + 128] + Varint(x / 128)
    ensures x < 128 ==> Varint(x) == [x]
  {
  }

  class Buffer {
    var data: array<Byte>
    var len: nat

    ghost predicate Valid()
      reads this
    {
      len <= data.Length
    }

    ghost function Contents(): Bytes
      requires Valid()
      reads this, data
    {
      data[..len]
    }

    /** The backing array is still `was`, with its old elements from `k` on. */
    ghost predicate Spared(was: array<Byte>, elements: Bytes, k: nat)
      reads this, data
    {
      data == was && data.Length == |elements| && forall i :: k <= i < data.Length ==> data[i] == elements[i]
    }

    constructor ()
      ensures Valid() && fresh(data) && Contents() == []
    {
      data := new Byte[0];
      len := 0;
    }

    /** One byte at the end, in place while the backing array has room. */
    method Append(b: Byte)
      requires Valid()
      modifies this, data
      ensures Valid() && (data == old(data) || fresh(data))
      ensures Contents() == old(Contents()) + [b]
      ensures old(len) < old(data.Length) ==> Spared(old(data), old(data[..]), old(len) + 1)
    {
      if len == data.Length {
        var bigger := new Byte[2 * len + 16];
        forall k | 0 <= k < len {
          bigger[k] := data[k];
        }
        data := bigger;
      }
      data[len] := b;
      len := len + 1;
    }

    method AppendAll(b: Bytes)
      requires Valid()
      modifies this, data
      ensures Valid() && (data == old(data) || fresh(data))
      ensures Contents() == old(Contents()) + b
    {
      for i := 0 to |b|
        invariant Valid() && (data == old(data) || fresh(data))
        invariant Contents() == old(Contents()) + b[..i]
      {
        Append(b[i]);
        assert b[..i + 1] == b[..i] + [b[i]];
      }
      assert b[..|b|] == b;
    }

    method EncodeVarint(x0: nat)
      requires Valid()
      modifies this, data
      ensures Valid() && (data == old(data) || fresh(data))
      ensures Contents() == old(Contents()) + Varint(x0)
      ensures old(len) + |Varint(x0)| <= old(data.Length) ==>
        Spared(old(data), old(data[..]), old(len) + |Varint(x0)|)
    {
      var x := x0;
      while x >= 128
        invariant Valid() && (data == old(data) || fresh(data))
        invariant Contents() + Varint(x) == old(Contents()) + Varint(x0)
        invariant old(len) + |Varint(x0)| <= old(data.Length) ==>
          Spared(old(data), old(data[..]), old(len) + |Varint(x0)|)
        decreases x
      {
        assert len + |Varint(x)| == old(len) + |Varint(x0)|;
        Append(x % 128 + 128);
        x := x / 128;
      }
      assert len + |Varint(x)| == old(len) + |Varint(x0)|;
      Append(x);
    }

    method EncodeFixed(x0: nat, n: nat)
      requires Valid()
      modifies this, data
      ensures Valid() && (data == old(data) || fresh(data))
      ensures Contents() == old(Contents()) + Fixed(x0, n)
    {
      var x := x0;
      for i := 0 to n
        invariant Valid() && (data == old(data) || fresh(data))
        invariant Contents() + Fixed(x, n - i) == old(Contents()) + Fixed(x0, n)
      {
        Append(x % 256);
        x := x / 256;
      }
    }

    method EncodeRawBytes(b: Bytes)
      requires Valid()
      modifies this, data
      ensures Valid() && (data == old(data) || fresh(data))
      ensures Contents() == old(Contents()) + Delimited(b)
    {
      EncodeVarint(|b|);
      AppendAll(b);
    }

    method EncodeScalar(coder: Coder, u: Word64)
      requires Valid()
      modifies this, data
      ensures Valid() && (data == old(data) || fresh(data))
      ensures Contents() == old(Contents()) + WriteScalar(coder, u)
    {
      hide Varint, Fixed, Zigzag;
      match coder {
        case AsVarint => EncodeVarint(u);
        case AsFixed32 => EncodeFixed(u, 4);
        case AsFixed64 => EncodeFixed(u, 8);
        case AsZigzag32 => EncodeVarint(Zigzag(u % TWO_32, TWO_31));
        case AsZigzag64 => EncodeVarint(Zigzag(u, TWO_63));
      }
    }

    // -------------------------------------------------------------- length prefixes

    /** `copy` within the array toward higher indices: the last byte moves first. */
    method MoveRight(from: nat, n: nat, shift: nat)
      requires from + n + shift <= data.Length
      modifies data
      ensures data[from + shift..from + shift + n] == old(data[from..from + n])
      ensures forall k :: 0 <= k < from ==> data[k] == old(data[k])
    {
      var i := n;
      while i > 0
        invariant 0 <= i <= n
        invariant forall k :: from + shift + i <= k < from + shift + n ==> data[k] == old(data[k - shift])
        invariant forall k :: 0 <= k < from + i ==> data[k] == old(data[k])
      {
        i := i - 1;
        data[from + shift + i] := data[from + i];
      }
    }

    /** `copy` within the array toward lower indices: the first byte moves first. */
    method MoveLeft(from: nat, n: nat, shift: nat)
      requires shift <= from && from + n <= data.Length
      modifies data
      ensures data[from - shift..from - shift + n] == old(data[from..from + n])
      ensures forall k :: 0 <= k < from - shift ==> data[k] == old(data[k])
    {
      var i := 0;
      while i < n
        invariant 0 <= i <= n
        invariant forall k :: from - shift <= k < from - shift + i ==> data[k] == old(data[k + shift])
        invariant forall k :: from + i <= k < data.Length ==> data[k] == old(data[k])
        invariant forall k :: 0 <= k < from - shift ==> data[k] == old(data[k])
      {
        data[from - shift + i] := data[from + i];
        i := i + 1;
      }
    }

    /** Four bytes reserved for a length still unknown. */
    method Reserve() returns (start: nat)
      requires Valid()
      modifies this, data
      ensures Valid() && (data == old(data) || fresh(data))
      ensures start == old(len) && Contents() == old(Contents()) + [0, 0, 0, 0]
    {
      start := len;
      AppendAll([0, 0, 0, 0]);
    }

    /**
     * The body after the reserved bytes moves left or right to make exact
     * room, the length is written over what lies between, and the buffer is
     * stretched back over the body, which the writing left alone.
     */
    method PatchLength(start: nat)
      requires Valid() && start + 4 <= len
      modifies this, data
      ensures Valid() && (data == old(data) || fresh(data))
      ensures Contents() == old(Contents()[..start]) + Delimited(old(Contents()[start + 4..]))
    {
      hide Varint;
      var bodyLen := len - start - 4;
      var lenLen := MakeRoom(start, bodyLen);
      ghost var head, body := data[..start], data[start + lenLen..len];
      len := start;
      EncodeVarint(bodyLen);
      assert data[len..len + bodyLen] == body;
      assert data[..len + bodyLen] == data[..len] + data[len..len + bodyLen];
      Regroup(head, Varint(bodyLen), body);
      len := len + bodyLen;
    }

    method MakeRoom(start: nat, bodyLen: nat) returns (lenLen: nat)
      requires Valid() && start + 4 + bodyLen == len
      modifies this, data
      ensures Valid() && (data == old(data) || fresh(data))
      ensures lenLen == |Varint(bodyLen)| && len == start + lenLen + bodyLen
      ensures data[..start] == old(Contents()[..start])
      ensures data[start + lenLen..len] == old(Contents()[start + 4..])
    {
      hide Varint;
      var bodyAt := start + 4;
      ghost var was := Contents();
      lenLen := SizeVarint(bodyLen);
      if lenLen > 4 {
        GrowBy(lenLen - 4);
        assert data[bodyAt..bodyAt + bodyLen] == data[..|was|][bodyAt..];
        assert data[..start] == data[..|was|][..start];
        MoveRight(bodyAt, bodyLen, lenLen - 4);
      } else if lenLen < 4 {
        assert data[bodyAt..bodyAt + bodyLen] == was[bodyAt..];
        MoveLeft(bodyAt, bodyLen, 4 - lenLen);
        len := len - (4 - lenLen);
      }
    }

    method GrowBy(n: nat)
      requires Valid()
      modifies this, data
      ensures Valid() && (data == old(data) || fresh(data))
      ensures len == old(len) + n && data[..old(len)] == old(Contents())
    {
      ghost var before := Contents();
      for i := 0 to n
        invariant Valid() && (data == old(data) || fresh(data))
        invariant len == old(len) + i && data[..old(len)] == before
      {
        ghost var now := Contents();
        Append(0);
        assert data[..old(len)] == Contents()[..old(len)] && now[..old(len)] == before;
      }
    }

    // -------------------------------------------------------------- messages

    method EncodeStruct(S: Schema, t: nat, m: Msg) returns (missing: bool)
      requires Valid() && GoodSchema(S) && Shaped(S, t, m)
      modifies this, data
      ensures Valid() && (data == old(data) || fresh(data))
      ensures Contents() == old(Contents()) + Encode(S, t, m)
      ensures missing == Incomplete(S, t, m)
      decreases m, 3
    {
      hide EncodeSlot, IncompleteSlot, GoodField, ShapedSlot, Shaped, GoodSchema;
      TypeKnown(S, t, m);
      missing := false;
      for i := 0 to |m.slots|
        invariant Valid() && (data == old(data) || fresh(data))
        invariant Contents() + EncodeSlots(S, t, m, i) == old(Contents()) + EncodeSlots(S, t, m, 0)
        invariant missing == exists k :: 0 <= k < i && IncompleteSlot(S, S[t].fields[k], m.slots[k])
      {
        ShapedAt(S, t, m, i);
        ghost var before := Contents();
        var unset := EncodeField(S, S[t].fields[i], m.slots[i]);
        Regroup(before, EncodeSlot(S, S[t].fields[i], m.slots[i]), EncodeSlots(S, t, m, i + 1));
        missing := missing || unset;
      }
      AppendAll(m.unknown);
      Regroup(old(Contents()), EncodeSlots(S, t, m, 0), m.unknown);
    }

    /** Writes the values of one field and tells whether a required value is unset in it or below it. */
    method EncodeField(S: Schema, f: Field, slot: Slot) returns (missing: bool)
      requires Valid() && GoodSchema(S) && GoodField(|S|, f) && ShapedSlot(S, f, slot)
      modifies this, data
      ensures Valid() && (data == old(data) || fresh(data))
      ensures Contents() == old(Contents()) + EncodeSlot(S, f, slot)
      ensures missing == IncompleteSlot(S, f, slot)
      decreases slot, 2
    {
      hide EncodeValue, IncompleteValue, PackedBody;
      missing := f.mode.Required? && slot.values == [];
      if slot.values == [] {
        return;
      }
      if f.mode.Packed? {
        assert forall k :: 0 <= k < |slot.values| ==> ShapedValue(S, f.typ, slot.values[k]);
        ScalarsComplete(S, f, slot);
        EncodePacked(f, slot.values);
        return;
      }
      for j := 0 to |slot.values|
        invariant Valid() && (data == old(data) || fresh(data))
        invariant Contents() + EncodeValues(S, f, slot, j) == old(Contents()) + EncodeValues(S, f, slot, 0)
        invariant missing == exists k :: 0 <= k < j && IncompleteValue(S, f.typ, slot.values[k])
      {
        var unset := EncodeOne(S, f, slot.values[j]);
        missing := missing || unset;
      }
    }

    /** A tag, a length and the scalars back to back; a boolean's byte count is its number of values. */
    method EncodePacked(f: Field, values: seq<Value>)
      requires Valid() && values != [] && f.typ.Scalar? && Keeps(f.typ.coder, f.typ.word)
      requires f.tag <= MAX_TAG
      requires forall k :: 0 <= k < |values| ==> values[k].Num? && InRange(f.typ.word, values[k].n)
      modifies this, data
      ensures Valid() && (data == old(data) || fresh(data))
      ensures Contents() == old(Contents()) + (Tagged(f.tag, WIRE_BYTES)
                            + Delimited(PackedBody(f.typ.word, f.typ.coder, values, 0)))
    {
      hide Varint, WriteScalar, Widen, PackedBody;
      var word, coder := f.typ.word, f.typ.coder;
      var code := TagCode(f.tag, WIRE_BYTES);
      if word.Bool? {
        BoolBody(coder, values, 0);
        AppendAll(code);
        EncodeVarint(|values|);
        EncodeScalars(word, coder, values);
      } else {
        var scratch := new Buffer();
        scratch.EncodeScalars(word, coder, values);
        AppendAll(code);
        EncodeRawBytes(scratch.data[..scratch.len]);
      }
    }

    method EncodeScalars(word: Word, coder: Coder, values: seq<Value>)
      requires Valid()
      requires forall k :: 0 <= k < |values| ==> values[k].Num? && InRange(word, values[k].n)
      modifies this, data
      ensures Valid() && (data == old(data) || fresh(data))
      ensures Contents() == old(Contents()) + PackedBody(word, coder, values, 0)
    {
      hide WriteScalar, Widen;
      for j := 0 to |values|
        invariant Valid() && (data == old(data) || fresh(data))
        invariant Contents() + PackedBody(word, coder, values, j) == old(Contents()) + PackedBody(word, coder, values, 0)
      {
        ghost var before := Contents();
        EncodeScalar(coder, Widen(word, values[j].n));
        Regroup(before, WriteScalar(coder, Widen(word, values[j].n)), PackedBody(word, coder, values, j + 1));
      }
    }

    /** One value with its tag; a nested message goes in behind a reserved length. */
    method EncodeOne(S: Schema, f: Field, v: Value) returns (missing: bool)
      requires Valid() && GoodSchema(S) && GoodField(|S|, f) && ShapedValue(S, f.typ, v)
      modifies this, data
      ensures Valid() && (data == old(data) || fresh(data))
      ensures Contents() == old(Contents()) + EncodeValue(S, f, v)
      ensures missing == IncompleteValue(S, f.typ, v)
      decreases v, 1
    {
      hide Varint, WriteScalar, Widen, Encode, Incomplete, Shaped, Delimited, GoodSchema;
      missing := false;
      if f.typ.Group? {
        EncodeVarint(f.tag * 8 + WIRE_START_GROUP);
        missing := EncodeStruct(S, f.typ.id, v.m);
        EncodeVarint(f.tag * 8 + WIRE_END_GROUP);
        return;
      }
      var code := TagCode(f.tag, WireType(f.typ));
      AppendAll(code);
      match f.typ {
        case Scalar(word, coder) =>
          EncodeScalar(coder, Widen(word, v.n));
        case Text =>
          EncodeRawBytes(v.b);
        case Message(id) =>
          missing := EncodeLengthAndStruct(S, id, v.m);
      }
    }

    /** A nested message behind its length: reserve, write the body, patch the length. */
    method EncodeLengthAndStruct(S: Schema, t: nat, m: Msg) returns (missing: bool)
      requires Valid() && GoodSchema(S) && Shaped(S, t, m)
      modifies this, data
      ensures Valid() && (data == old(data) || fresh(data))
      ensures Contents() == old(Contents()) + Delimited(Encode(S, t, m))
      ensures missing == Incomplete(S, t, m)
      decreases m, 4
    {
      hide Encode, Incomplete, Shaped, Delimited, GoodSchema;
      ghost var before := Contents();
      var start := Reserve();
      missing := EncodeStruct(S, t, m);
      ghost var body := Encode(S, t, m);
      assert Contents() == (before + [0, 0, 0, 0]) + body;
      assert Contents()[..start] == before;
      assert Contents()[start + 4..] == body;
      PatchLength(start);
    }
  }

  lemma Regroup(a: Bytes, b: Bytes, c: Bytes)
    ensures a + (b + c) == (a + b) + c
  {
  }

  lemma ScalarsComplete(S: Schema, f: Field, slot: Slot)
    requires f.typ.Scalar?
    ensures forall j :: 0 <= j < |slot.values| ==> !IncompleteValue(S, f.typ, slot.values[j])
  {
  }

  // ---------------------------------------------------------------- sizes

  method SizeScalar(coder: Coder, u: Word64) returns (n: nat)
    ensures n == |WriteScalar(coder, u)|
  {
    hide Varint, Zigzag;
    match coder {
      case AsVarint => n := SizeVarint(u);
      case AsFixed32 => n := 4;
      case AsFixed64 => n := 8;
      case AsZigzag32 => n := SizeVarint(Zigzag(u % TWO_32, TWO_31));
      case AsZigzag64 => n := SizeVarint(Zigzag(u, TWO_63));
    }
  }

  /** The bytes of a message, counted without writing them: exactly the length of its encoding. */
  method SizeStruct(S: Schema, t: nat, m: Msg) returns (n: nat)
    requires GoodSchema(S) && Shaped(S, t, m)
    ensures n == |Encode(S, t, m)|
    decreases m, 3
  {
    hide EncodeSlot, GoodField, ShapedSlot;
    n := 0;
    for i := 0 to |m.slots|
      invariant n + |EncodeSlots(S, t, m, i)| == |EncodeSlots(S, t, m, 0)|
    {
      assert GoodDescriptor(|S|, S[t]);
      var k := SizeField(S, S[t].fields[i], m.slots[i]);
      n := n + k;
    }
    n := n + |m.unknown|;
  }

  /** What one value takes besides its tag: for a group, besides both of its markers. */
  ghost function BodySize(S: Schema, f: Field, v: Value): (n: int)
    requires GoodSchema(S) && ShapedValue(S, f.typ, v)
  {
    |EncodeValue(S, f, v)| - TagSize(f)
  }

  ghost function TagSize(f: Field): (n: nat) {
    if f.typ.Group? then |Tagged(f.tag, WIRE_START_GROUP)| + |Tagged(f.tag, WIRE_END_GROUP)|
    else |Tagged(f.tag, WireType(f.typ))|
  }

  ghost function BodySizes(S: Schema, f: Field, slot: Slot, j: nat): (n: int)
    requires GoodSchema(S) && ShapedSlot(S, f, slot) && j <= |slot.values|
    decreases |slot.values| - j
  {
    if j == |slot.values| then 0 else BodySize(S, f, slot.values[j]) + BodySizes(S, f, slot, j + 1)
  }

  /** All the tags can be counted up front. */
  lemma {:induction false} TagsUpFront(S: Schema, f: Field, slot: Slot, j: nat)
    requires GoodSchema(S) && ShapedSlot(S, f, slot) && j <= |slot.values|
    ensures |EncodeValues(S, f, slot, j)| == (|slot.values| - j) * TagSize(f) + BodySizes(S, f, slot, j)
    decreases |slot.values| - j
  {
    hide EncodeValue, TagSize, GoodSchema;
    if j < |slot.values| {
      TagsUpFront(S, f, slot, j + 1);
      var n := |slot.values| - j;
      assert n * TagSize(f) == TagSize(f) + (n - 1) * TagSize(f);
    }
  }

  method SizeField(S: Schema, f: Field, slot: Slot) returns (n: nat)
    requires GoodSchema(S) && GoodField(|S|, f) && ShapedSlot(S, f, slot)
    ensures n == |EncodeSlot(S, f, slot)|
    decreases slot, 2
  {
    hide EncodeValue, PackedBody, Varint, TagSize, GoodSchema;
    if slot.values == [] {
      return 0;
    }
    if f.mode.Packed? {
      assert forall k :: 0 <= k < |slot.values| ==> ShapedValue(S, f.typ, slot.values[k]);
      n := SizePacked(f, slot.values);
      return;
    }
    var tags := SizeTags(f);
    var total: int := |slot.values| * tags;
    for j := 0 to |slot.values|
      invariant total + BodySizes(S, f, slot, j) == |slot.values| * tags + BodySizes(S, f, slot, 0)
    {
      var k := SizeBody(S, f, slot.values[j]);
      total := total + k;
    }
    TagsUpFront(S, f, slot, 0);
    n := total;
  }

  method SizeTags(f: Field) returns (n: nat)
    requires f.tag <= MAX_TAG
    ensures n == TagSize(f)
  {
    if f.typ.Group? {
      var a := SizeVarint(f.tag * 8 + WIRE_START_GROUP);
      var b := SizeVarint(f.tag * 8 + WIRE_END_GROUP);
      n := a + b;
    } else {
      var code := TagCode(f.tag, WireType(f.typ));
      n := |code|;
    }
  }

  method SizePacked(f: Field, values: seq<Value>) returns (n: nat)
    requires values != [] && f.typ.Scalar? && Keeps(f.typ.coder, f.typ.word) && f.tag <= MAX_TAG
    requires forall k :: 0 <= k < |values| ==> values[k].Num? && InRange(f.typ.word, values[k].n)
    ensures n == |Tagged(f.tag, WIRE_BYTES)| + |Delimited(PackedBody(f.typ.word, f.typ.coder, values, 0))|
  {
    hide Varint, WriteScalar, Widen;
    var word, coder := f.typ.word, f.typ.coder;
    var code := TagCode(f.tag, WIRE_BYTES);
    var body := |values|;
    if word.Bool? {
      BoolBody(coder, values, 0);
    } else {
      body := 0;
      for j := 0 to |values|
        invariant body + |PackedBody(word, coder, values, j)| == |PackedBody(word, coder, values, 0)|
      {
        var k := SizeScalar(coder, Widen(word, values[j].n));
        body := body + k;
      }
    }
    var lenLen := SizeVarint(body);
    n := |code| + lenLen + body;
  }

  method SizeBody(S: Schema, f: Field, v: Value) returns (n: nat)
    requires GoodSchema(S) && GoodField(|S|, f) && ShapedValue(S, f.typ, v)
    ensures n == BodySize(S, f, v)
    decreases v, 1
  {
    hide Varint, WriteScalar, Widen, Encode, Shaped;
    match f.typ {
      case Scalar(word, coder) =>
        if word.Bool? {
          n := 1;
          BoolTakesOneByte(coder, v.n);
        } else {
          n := SizeScalar(coder, Widen(word, v.n));
        }
      case Text =>
        n := SizeVarint(|v.b|);
        n := n + |v.b|;
      case Message(id) =>
        var body := SizeStruct(S, id, v.m);
        var lenLen := SizeVarint(body);
        n := body + lenLen;
      case Group(id) =>
        n := SizeStruct(S, id, v.m);
    }
  }
}
