/**
 * The read side of the protocol buffer `Buffer`: an index that advances over
 * the bytes. Every loop is proved to do what the reading function of the wire
 * format, or of the message decoder, does to the unread bytes.
 */
module ProtoReader {
  import opened Wrappers
  import opened ProtoWire
  import opened ProtoMessage
  import opened ProtoDecode

  datatype Reply<+T> =
    | Value(value: T)
    | Error(error: Error)

  datatype Decoded = Decoded(msg: Msg, missing: bool)

  datatype DecodedSlot = DecodedSlot(slot: Slot, missing: bool)

  // ---------------------------------------------------------------- tag index

  const FAST_LIMIT: int := 1024

  /** Field numbers by tag: an array for small tags and a map for the others. */
  class TagMap {
    var fastTags: seq<int>
    var slowTags: map<int, int>

    function Lookup(t: int): (r: Option<int>)
      reads this
    {
      if 0 < t < FAST_LIMIT then
        if t < |fastTags| && fastTags[t] >= 0 then Some(fastTags[t]) else None
      else if t in slowTags then Some(slowTags[t]) else None
    }

    constructor ()
      ensures forall u :: Lookup(u) == None
    {
      fastTags := [];
      slowTags := map[];
    }

    method Get(t: int) returns (fi: int, ok: bool)
      ensures Lookup(t) == if ok then Some(fi) else None
    {
      if t > 0 && t < FAST_LIMIT {
        if t >= |fastTags| {
          return 0, false;
        }
        fi := fastTags[t];
        ok := fi >= 0;
        return;
      }
      if t in slowTags {
        return slowTags[t], true;
      }
      return 0, false;
    }

    /** Afterwards that tag has that field number and every other tag is as before. */
    method Put(t: int, fi: nat)
      modifies this
      ensures Lookup(t) == Some(fi)
      ensures forall u :: u != t ==> Lookup(u) == old(Lookup(u))
    {
      if t > 0 && t < FAST_LIMIT {
        while |fastTags| < t + 1
          invariant slowTags == old(slowTags)
          invariant forall u :: Lookup(u) == old(Lookup(u))
          decreases t + 1 - |fastTags|
        {
          fastTags := fastTags + [-1];
        }
        fastTags := fastTags[t := fi];
        return;
      }
      slowTags := slowTags[t := fi];
    }
  }

  /** The index built over a message type finds exactly the field with that tag. */
  method BuildTags(count: nat, d: Descriptor) returns (tags: TagMap)
    requires GoodDescriptor(count, d)
    ensures forall u: nat :: tags.Lookup(u) == FindField(d.fields, u, 0)
  {
    tags := new TagMap();
    for i := 0 to |d.fields|
      invariant fresh(tags)
      invariant forall u: nat :: tags.Lookup(u).None? ==> forall k :: 0 <= k < i ==> d.fields[k].tag != u
      invariant forall u: nat :: tags.Lookup(u).Some? ==>
        0 <= tags.Lookup(u).value < i && d.fields[tags.Lookup(u).value].tag == u
    {
      tags.Put(d.fields[i].tag, i);
    }
    hide FindField;
    forall u: nat
      ensures tags.Lookup(u) == FindField(d.fields, u, 0)
    {
      var i := FindField(d.fields, u, 0);
      assert forall j, k :: 0 <= j < |d.fields| && 0 <= k < |d.fields| && d.fields[j].tag == d.fields[k].tag ==> j == k;
    }
  }

  // ---------------------------------------------------------------- the reader

  class Reader {
    var buf: Bytes
    var index: nat

    ghost predicate Valid()
      reads this
    {
      index <= |buf|
    }

    ghost function Unread(): Bytes
      requires Valid()
      reads this
    {
      buf[index..]
    }

    constructor (b: Bytes)
      ensures Valid() && buf == b && index == 0 && Unread() == b
    {
      buf := b;
      index := 0;
    }

    /** Seven bits a byte, low bits first; a number that does not end leaves the index alone. */
    method DecodeVarint() returns (r: Reply<Word64>)
      requires Valid()
      modifies this`index
      ensures Valid()
      ensures match ReadVarint(old(Unread()))
              case Ok(x, rest) => r == Value(x) && Unread() == rest
              case Err(e) => r == Error(e) && Unread() == old(Unread())
    {
      hide RawVarint;
      var i := index;
      var x: nat, scale: nat := 0, 1;
      var k: nat := MAX_VARINT_BYTES;
      ghost var whole := RawVarint(Unread(), MAX_VARINT_BYTES);
      while k > 0
        invariant index <= i <= |buf| && index == old(index) && k <= MAX_VARINT_BYTES
        invariant Joined(x, scale, RawVarint(buf[i..], k)) == whole
        decreases k
      {
        RawVarintStep(buf[i..], k);
        if i >= |buf| {
          return Error(UnexpectedEof);
        }
        var b := buf[i];
        assert buf[i..][1..] == buf[i + 1..];
        i := i + 1;
        if b < 128 {
          index := i;
          assert b * scale == scale * b;
          return Value((x + b * scale) % TWO_64);
        }
        JoinStep(x, scale, b, RawVarint(buf[i..], k - 1));
        x := x + (b - 128) * scale;
        scale := 128 * scale;
        k := k - 1;
      }
      RawVarintStep(buf[i..], k);
      return Error(Overflow);
    }

    method DecodeFixed(n: nat) returns (r: Reply<nat>)
      requires Valid()
      modifies this`index
      ensures Valid()
      ensures match ReadFixed(old(Unread()), n)
              case Ok(x, rest) => r == Value(x) && Unread() == rest
              case Err(e) => r == Error(e) && Unread() == old(Unread())
    {
      var end := index + n;
      if end > |buf| {
        return Error(UnexpectedEof);
      }
      var x: nat, i := 0, end;
      while i > index
        invariant index == old(index) && index <= i <= end
        invariant x == FixedValue(buf[i..end])
      {
        i := i - 1;
        assert buf[i..end][1..] == buf[i + 1..end];
        x := buf[i] + 256 * x;
      }
      index := end;
      assert old(Unread())[..n] == buf[i..end];
      return Value(x);
    }

    method DecodeRawBytes() returns (r: Reply<Bytes>)
      requires Valid()
      modifies this`index
      ensures Valid()
      ensures match ReadDelimited(old(Unread()))
              case Ok(b, rest) => r == Value(b) && Unread() == rest
              case Err(e) => r == Error(e)
    {
      hide ReadVarint;
      var n := DecodeVarint();
      if n.Error? {
        return Error(n.error);
      }
      if n.value >= TWO_63 {
        return Error(BadLength);
      }
      var end := index + n.value;
      if end > |buf| {
        return Error(UnexpectedEof);
      }
      var b := buf[index..end];
      assert b == Unread()[..n.value];
      index := end;
      return Value(b);
    }

    method DecodeScalar(coder: Coder) returns (r: Reply<Word64>)
      requires Valid()
      modifies this`index
      ensures Valid()
      ensures match ReadScalar(coder, old(Unread()))
              case Ok(u, rest) => r == Value(u) && Unread() == rest
              case Err(e) => r == Error(e)
    {
      hide ReadVarint, ReadFixed, Unzigzag;
      match coder {
        case AsVarint => r := DecodeVarint();
        case AsFixed32 => r := DecodeWord(4);
        case AsFixed64 => r := DecodeWord(8);
        case AsZigzag32 =>
          r := DecodeVarint();
          if r.Value? { r := Value(Unzigzag(r.value % TWO_32, TWO_31)); }
        case AsZigzag64 =>
          r := DecodeVarint();
          if r.Value? { r := Value(Unzigzag(r.value, TWO_63)); }
      }
    }

    method DecodeWord(n: nat) returns (r: Reply<Word64>)
      requires Valid() && (n == 4 || n == 8)
      modifies this`index
      ensures Valid()
      ensures match ReadWord(old(Unread()), n)
              case Ok(u, rest) => r == Value(u) && Unread() == rest
              case Err(e) => r == Error(e)
    {
      FixedSizes();
      hide Pow256, FixedValue;
      ghost var head := if n <= |Unread()| then Unread()[..n] else [];
      FixedValueBound(head);
      var x := DecodeFixed(n);
      match x {
        case Value(v) => r := Value(v);
        case Error(e) => r := Error(e);
      }
    }

    // -------------------------------------------------------------- skipping

    /** Moves past one payload; `None` is success. */
    method SkipPayload(wire: nat) returns (r: Option<Error>)
      requires Valid()
      modifies this`index
      ensures Valid()
      ensures match Skip(old(Unread()), wire)
              case Ok(_, rest) => r == None && Unread() == rest
              case Err(e) => r == Some(e)
      decreases |buf| - index, 1
    {
      hide ReadVarint, ReadFixed, ReadDelimited, SkipGroup;
      if wire == WIRE_VARINT {
        var x := DecodeVarint();
        r := if x.Error? then Some(x.error) else None;
      } else if wire == WIRE_FIXED64 {
        var x := DecodeFixed(8);
        r := if x.Error? then Some(x.error) else None;
      } else if wire == WIRE_BYTES {
        var x := DecodeRawBytes();
        r := if x.Error? then Some(x.error) else None;
      } else if wire == WIRE_FIXED32 {
        var x := DecodeFixed(4);
        r := if x.Error? then Some(x.error) else None;
      } else if wire == WIRE_START_GROUP {
        r := SkipToEndGroup();
      } else {
        r := Some(UnknownWireType);
      }
    }

    method SkipToEndGroup() returns (r: Option<Error>)
      requires Valid()
      modifies this`index
      ensures Valid()
      ensures match SkipGroup(old(Unread()))
              case Ok(_, rest) => r == None && Unread() == rest
              case Err(e) => r == Some(e)
      decreases |buf| - index, 0
    {
      hide ReadVarint, Skip, Tail;
      while true
        invariant Valid() && old(index) <= index
        invariant SkipGroup(Unread()) == SkipGroup(old(Unread()))
        decreases |buf| - index
      {
        ghost var before := Unread();
        var u := DecodeVarint();
        if u.Error? {
          return Some(u.error);
        }
        if u.value % 8 == WIRE_END_GROUP {
          return None;
        }
        assert |Unread()| < |before|;
        var e := SkipPayload(u.value % 8);
        if e.Some? {
          return e;
        }
      }
    }

    /** Skips a field and gives back what is to be appended to the unknown bytes. */
    method SkipAndSave(u: Word64) returns (r: Reply<Bytes>)
      requires Valid()
      modifies this`index
      ensures Valid()
      ensures match Skip(old(Unread()), u % 8)
              case Ok(_, rest) => r == Value(Saved(u, old(Unread()), rest)) && Unread() == rest
              case Err(e) => r == Error(e)
    {
      hide Skip, Varint;
      var oi := index;
      var e := SkipPayload(u % 8);
      if e.Some? {
        return Error(e.value);
      }
      assert index == |buf| - |Unread()|;
      assert buf[oi..index] == old(Unread())[..index - oi];
      return Value(Varint(u) + buf[oi..index]);
    }

    // -------------------------------------------------------------- packed fields

    method DecodePacked(word: Word, coder: Coder, values: seq<Value>) returns (r: Reply<seq<Value>>)
      requires Valid() && forall j :: 0 <= j < |values| ==> values[j].Num? && InRange(word, values[j].n)
      modifies this`index
      ensures Valid()
      ensures match ReadPacked(word, coder, values, old(Unread()))
              case Ok(vs, rest) => r == Value(vs) && Unread() == rest
              case Err(e) => r == Error(e)
    {
      hide ReadVarint, ReadCount, ReadUntil;
      var n := DecodeVarint();
      if n.Error? {
        return Error(n.error);
      }
      if word.Bool? {
        r := DecodeCount(word, coder, values, if n.value >= TWO_63 then 0 else n.value);
      } else if n.value >= TWO_63 {
        r := Error(Overflow);
      } else {
        r := DecodeUntil(word, coder, values, index + n.value);
      }
    }

    method DecodeCount(word: Word, coder: Coder, values: seq<Value>, n: nat) returns (r: Reply<seq<Value>>)
      requires Valid() && forall j :: 0 <= j < |values| ==> values[j].Num? && InRange(word, values[j].n)
      modifies this`index
      ensures Valid()
      ensures match ReadCount(word, coder, values, n, old(Unread()))
              case Ok(vs, rest) => r == Value(vs) && Unread() == rest
              case Err(e) => r == Error(e)
    {
      hide ReadScalar, Narrow;
      var y := values;
      for i := 0 to n
        invariant Valid() && forall j :: 0 <= j < |y| ==> y[j].Num? && InRange(word, y[j].n)
        invariant ReadCount(word, coder, y, n - i, Unread()) == ReadCount(word, coder, values, n, old(Unread()))
      {
        var u := DecodeScalar(coder);
        if u.Error? {
          return Error(u.error);
        }
        y := y + [Num(Narrow(word, u.value))];
      }
      return Value(y);
    }

    method DecodeUntil(word: Word, coder: Coder, values: seq<Value>, fin: nat) returns (r: Reply<seq<Value>>)
      requires Valid() && forall j :: 0 <= j < |values| ==> values[j].Num? && InRange(word, values[j].n)
      modifies this`index
      ensures Valid()
      ensures match ReadUntil(word, coder, values, |buf| - fin, old(Unread()))
              case Ok(vs, rest) => r == Value(vs) && Unread() == rest
              case Err(e) => r == Error(e)
    {
      hide ReadScalar, Narrow, Tail, InRange;
      var y := values;
      while index < fin
        invariant Valid() && forall j :: 0 <= j < |y| ==> y[j].Num? && InRange(word, y[j].n)
        invariant ReadUntil(word, coder, y, |buf| - fin, Unread())
               == ReadUntil(word, coder, values, |buf| - fin, old(Unread()))
        decreases |buf| - index
      {
        ghost var before := Unread();
        var u := DecodeScalar(coder);
        if u.Error? {
          return Error(u.error);
        }
        assert |Unread()| < |before|;
        y := y + [Num(Narrow(word, u.value))];
      }
      return Value(y);
    }

    // -------------------------------------------------------------- messages

    /** Reads fields into the message until the input, or the group, ends. */
    method UnmarshalType(S: Schema, t: nat, isGroup: bool, m0: Msg) returns (r: Reply<Decoded>)
      requires Valid() && GoodSchema(S) && Shaped(S, t, m0)
      modifies this
      ensures Valid() && buf == old(buf)
      ensures match Unmarshal(S, t, isGroup, m0, Start(S[t]), old(Unread()))
              case Done(m, missing, rest) => r == Value(Decoded(m, missing)) && Unread() == rest
              case Fail(e) => r == Error(e)
      decreases |buf| - index, 1
    {
      hide ReadVarint, Skip, Shaped, ShapedSlot, GoodField, GoodSchema, DecodeSlot, Tally, Saved, FindField, Start;
      TypeKnown(S, t, m0);
      var m, p := m0, Start(S[t]);
      ghost var whole := Unmarshal(S, t, isGroup, m0, Start(S[t]), Unread());
      while index < |buf|
        invariant Valid() && buf == old(buf) && old(index) <= index && Shaped(S, t, m)
        invariant Unmarshal(S, t, isGroup, m, p, Unread()) == whole
        decreases |buf| - index
      {
        ghost var before := Unread();
        var u := DecodeVarint();
        if u.Error? {
          return Error(u.error);
        }
        if u.value % 8 == WIRE_END_GROUP {
          if isGroup {
            return Value(Decoded(m, false));
          }
          return Error(EndGroupOutsideGroup);
        }
        var tag := u.value / 8;
        if tag <= 0 {
          return Error(IllegalTag);
        }
        assert |Unread()| < |before|;
        var i := FindField(S[t].fields, tag, 0);
        if i.None? {
          var saved := SkipAndSave(u.value);
          if saved.Error? {
            return Error(saved.error);
          }
          if S[t].keepsUnknown {
            m := m.(unknown := m.unknown + saved.value);
          }
        } else {
          TypeKnown(S, t, m);
          ShapedAt(S, t, m, i.value);
          var f := S[t].fields[i.value];
          var d := DecodeInto(S, f, m.slots[i.value], u.value % 8);
          if d.Error? {
            return Error(d.error);
          }
          m := Put(S, t, m, i.value, d.value.slot);
          p := Tally(p, f, d.value.missing);
        }
      }
      if isGroup {
        return Error(UnexpectedEof);
      }
      return Value(Decoded(m, p.missing || p.required > 0));
    }

    method DecodeInto(S: Schema, f: Field, slot: Slot, wire: nat) returns (r: Reply<DecodedSlot>)
      requires Valid() && GoodSchema(S) && GoodField(|S|, f) && ShapedSlot(S, f, slot)
      modifies this
      ensures Valid() && buf == old(buf)
      ensures match DecodeSlot(S, f, slot, wire, old(Unread()))
              case Got(after, missing, rest) => r == Value(DecodedSlot(after, missing)) && Unread() == rest
              case Failed(e) => r == Error(e)
      decreases |buf| - index, 3
    {
      hide ReadPacked, ReadScalar, ReadDelimited, Unmarshal, Store, Base, Shaped, GoodSchema, Narrow, Tail, Start, Packable, TakesWire, WireType;
      if !TakesWire(f, wire) && !(wire == WIRE_BYTES && Packable(f)) {
        return Error(BadWireType);
      }
      if f.typ.Scalar? {
        r := DecodeScalarInto(S, f, slot, wire);
      } else {
        NotPackable(f);
        r := DecodeDelimitedInto(S, f, slot, wire);
      }
    }

    method DecodeScalarInto(S: Schema, f: Field, slot: Slot, wire: nat) returns (r: Reply<DecodedSlot>)
      requires Valid() && GoodSchema(S) && GoodField(|S|, f) && ShapedSlot(S, f, slot) && f.typ.Scalar?
      requires TakesWire(f, wire) || (wire == WIRE_BYTES && Packable(f))
      modifies this`index
      ensures Valid()
      ensures match DecodeSlot(S, f, slot, wire, old(Unread()))
              case Got(after, missing, rest) => r == Value(DecodedSlot(after, missing)) && Unread() == rest
              case Failed(e) => r == Error(e)
    {
      hide ReadPacked, ReadScalar, ReadDelimited, Unmarshal, Store, Base, Shaped, GoodSchema, Narrow, Tail, Start, Packable, TakesWire, WireType, GoodField, Fits;
      if !TakesWire(f, wire) {
        var vs := DecodePacked(f.typ.word, f.typ.coder, slot.values);
        r := if vs.Error? then Error(vs.error) else Value(DecodedSlot(Slot(vs.value), false));
      } else {
        var u := DecodeScalar(f.typ.coder);
        r := if u.Error? then Error(u.error)
             else Value(DecodedSlot(Slot(Store(f.mode, slot.values, Num(Narrow(f.typ.word, u.value)))), false));
      }
    }

    /** Text, or a nested message read from its own bytes, or a group read in place. */
    method DecodeDelimitedInto(S: Schema, f: Field, slot: Slot, wire: nat) returns (r: Reply<DecodedSlot>)
      requires Valid() && GoodSchema(S) && GoodField(|S|, f) && ShapedSlot(S, f, slot) && !f.typ.Scalar?
      requires TakesWire(f, wire)
      modifies this
      ensures Valid() && buf == old(buf)
      ensures match DecodeSlot(S, f, slot, wire, old(Unread()))
              case Got(after, missing, rest) => r == Value(DecodedSlot(after, missing)) && Unread() == rest
              case Failed(e) => r == Error(e)
      decreases |buf| - index, 2
    {
      hide ReadPacked, ReadScalar, ReadDelimited, Unmarshal, Store, Base, Shaped, GoodSchema, Narrow, Tail, Start, Packable, TakesWire, WireType, Fits;
      if f.typ.Text? {
        var b := DecodeRawBytes();
        r := if b.Error? then Error(b.error)
             else Value(DecodedSlot(Slot(Store(f.mode, slot.values, Data(b.value))), false));
        return;
      }
      var id := f.typ.id;
      SubsShaped(S, f, slot);
      var base := Base(S, id, f.mode, slot.values);
      var d: Reply<Decoded>;
      if f.typ.Message? {
        var raw := DecodeRawBytes();
        if raw.Error? {
          return Error(raw.error);
        }
        var obuf, oi := buf, index;
        buf, index := raw.value, 0;
        assert Unread() == raw.value;
        d := UnmarshalType(S, id, false, base);
        buf, index := obuf, oi;
      } else {
        d := UnmarshalType(S, id, true, base);
      }
      r := if d.Error? then Error(d.error)
           else Value(DecodedSlot(Slot(Store(f.mode, slot.values, Sub(d.value.msg))), d.value.missing));
    }
  }

  lemma SubsShaped(S: Schema, f: Field, slot: Slot)
    requires ShapedSlot(S, f, slot) && (f.typ.Message? || f.typ.Group?)
    ensures forall j :: 0 <= j < |slot.values| ==> slot.values[j].Sub? && Shaped(S, f.typ.id, slot.values[j].m)
  {
    hide Shaped;
    assert forall j :: 0 <= j < |slot.values| ==> ShapedValue(S, f.typ, slot.values[j]);
  }

  lemma NotPackable(f: Field)
    requires !f.typ.Scalar?
    ensures !Packable(f)
  {
  }

  // ---------------------------------------------------------------- joining varint bytes

  lemma RawVarintStep(s: Bytes, k: nat)
    ensures k == 0 ==> RawVarint(s, k) == Err(Overflow)
    ensures k > 0 && s == [] ==> RawVarint(s, k) == Err(UnexpectedEof)
    ensures k > 0 && s != [] && s[0] < 128 ==> RawVarint(s, k) == Ok(s[0], s[1..])
    ensures k > 0 && s != [] && s[0] >= 128 ==>
      RawVarint(s, k) == Joined(s[0] - 128, 128, RawVarint(s[1..], k - 1))
  {
  }

  /** A number whose low part has been read already. */
  ghost function Joined(x: nat, scale: nat, r: Read<nat>): Read<nat> {
    match r
    case Ok(y, rest) => Ok(x + scale * y, rest)
    case Err(e) => Err(e)
  }

  lemma JoinStep(x: nat, scale: nat, b: Byte, r: Read<nat>)
    requires b >= 128
    ensures Joined(x, scale, Joined(b - 128, 128, r)) == Joined(x + (b - 128) * scale, 128 * scale, r)
  {
    if r.Ok? {
      var low, y := b - 128, r.value;
      assert scale * (low + 128 * y) == low * scale + 128 * scale * y;
    }
  }
}
