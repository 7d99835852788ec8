/** UTF-8 as the YAML reader, writer and scanner compute it: shifts and masks become division and remainder. */
module Utf8 {
  import opened Wrappers

  predicate IsScalarValue(v: int) { 0 <= v <= 0x10FFFF && !(0xD800 <= v <= 0xDFFF) }

  type CodePoint = v: int | IsScalarValue(v)

  function Trail(n: nat): Byte { 0x80 + n % 64 }

  /** The bytes of one character. */
  function Encode(v: CodePoint): (bs: Bytes)
    ensures 1 <= |bs| <= 4 && Width(bs[0]) == |bs|
  {
    assert IsScalarValue(v);
    if v <= 0x7F then
      var b: Byte := v;
      [b]
    else if v <= 0x7FF then
      var b: Byte := 0xC0 + v / 64;
      [b, Trail(v)]
    else if v <= 0xFFFF then
      var b: Byte := 0xE0 + v / 4096;
      [b, Trail(v / 64), Trail(v)]
    else
      var b: Byte := 0xF0 + v / 262144;
      [b, Trail(v / 4096), Trail(v / 64), Trail(v)]
  }

  function EncodeAll(vs: seq<CodePoint>): Bytes {
    if vs == [] then [] else Encode(vs[0]) + EncodeAll(vs[1..])
  }

  /** The length announced by a leading octet, 0 if it cannot lead. */
  function Width(b: Byte): nat {
    if b < 0x80 then 1
    else if 0xC0 <= b < 0xE0 then 2
    else if 0xE0 <= b < 0xF0 then 3
    else if 0xF0 <= b < 0xF8 then 4
    else 0
  }

  /** The payload of a leading octet. */
  function LeadBits(b: Byte): nat {
    if b < 0x80 then b
    else if 0xC0 <= b < 0xE0 then b - 0xC0
    else if 0xE0 <= b < 0xF0 then b - 0xE0
    else if 0xF0 <= b < 0xF8 then b - 0xF0
    else 0
  }

  /** The payload of a trailing octet. */
  function TrailBits(b: Byte): nat { b % 64 }

  predicate IsTrail(b: Byte) { 0x80 <= b < 0xC0 }

  /** The value of a character's octets. */
  function Value(bs: Bytes): nat
    requires 1 <= |bs|
  {
    if |bs| == 1 then LeadBits(bs[0]) else 64 * Value(bs[..|bs| - 1]) + TrailBits(bs[|bs| - 1])
  }

  /** The shortest-form rule of RFC 3629. */
  predicate LengthOk(width: nat, v: nat) {
    width == 1 || (width == 2 && v >= 0x80) || (width == 3 && v >= 0x800) || (width == 4 && v >= 0x10000)
  }

  /** One well-formed character (section 4 of RFC 3629). */
  predicate WellFormedChar(bs: Bytes) {
    && bs != [] && Width(bs[0]) == |bs|
    && (forall k | 1 <= k < |bs| :: IsTrail(bs[k]))
    && LengthOk(|bs|, Value(bs)) && IsScalarValue(Value(bs))
  }

  /** Splitting off six bits. */
  lemma Split(hi: nat, lo: nat)
    requires lo < 64
    ensures (64 * hi + lo) / 64 == hi && (64 * hi + lo) % 64 == lo
  {
  }

  lemma ValueUnfold(bs: Bytes)
    requires 1 <= |bs| <= 4
    ensures |bs| == 1 ==> Value(bs) == LeadBits(bs[0])
    ensures |bs| == 2 ==> Value(bs) == 64 * LeadBits(bs[0]) + TrailBits(bs[1])
    ensures |bs| == 3 ==> Value(bs) == 64 * (64 * LeadBits(bs[0]) + TrailBits(bs[1])) + TrailBits(bs[2])
    ensures |bs| == 4 ==>
              Value(bs) == 64 * (64 * (64 * LeadBits(bs[0]) + TrailBits(bs[1])) + TrailBits(bs[2])) + TrailBits(bs[3])
  {
    if |bs| > 1 {
      var init := bs[..|bs| - 1];
      ValueUnfold(init);
    }
  }

  lemma DivChain(v: nat)
    ensures v / 4096 == v / 64 / 64 && v / 262144 == v / 64 / 64 / 64
  {
  }

  lemma TrailRoundTrip(n: nat)
    ensures TrailBits(Trail(n)) == n % 64 && IsTrail(Trail(n))
  {
  }

  /** Decoding inverts encoding. */
  lemma ValueOfEncoded(v: CodePoint)
    ensures Value(Encode(v)) == v && WellFormedChar(Encode(v))
  {
    hide Value, Trail, TrailBits, IsTrail;
    var bs := Encode(v);
    ValueUnfold(bs);
    DivChain(v);
    TrailRoundTrip(v);
    TrailRoundTrip(v / 64);
    TrailRoundTrip(v / 4096);
    assert IsScalarValue(v);
    Recombine(v);
  }

  lemma Recombine(v: nat)
    ensures 64 * (v / 64) + v % 64 == v
    ensures 64 * (v / 64 / 64) + v / 64 % 64 == v / 64
    ensures 64 * (v / 64 / 64 / 64) + v / 64 / 64 % 64 == v / 64 / 64
  {
  }

  lemma TrailOf(b: Byte, n: nat)
    requires IsTrail(b) && n % 64 == TrailBits(b)
    ensures Trail(n) == b
  {
  }

  /** A well-formed character is the encoding of its value. */
  lemma EncodedIsWellFormed(bs: Bytes)
    requires WellFormedChar(bs)
    ensures Encode(Value(bs)) == bs
  {
    match |bs| {
      case 1 => Encoded1(bs);
      case 2 => Encoded2(bs);
      case 3 => Encoded3(bs);
      case 4 => Encoded4(bs);
    }
  }

  lemma Encoded1(bs: Bytes)
    requires WellFormedChar(bs) && |bs| == 1
    ensures Encode(Value(bs)) == bs
  {
  }

  lemma Encoded2(bs: Bytes)
    requires WellFormedChar(bs) && |bs| == 2
    ensures Encode(Value(bs)) == bs
  {
    hide Value, Trail;
    ValueUnfold(bs);
    var v, a, b := Value(bs), LeadBits(bs[0]), TrailBits(bs[1]);
    Split(a, b);
    TrailOf(bs[1], v);
  }

  lemma Encoded3(bs: Bytes)
    requires WellFormedChar(bs) && |bs| == 3
    ensures Encode(Value(bs)) == bs
  {
    hide Value, Trail;
    ValueUnfold(bs);
    var v, a, b, c := Value(bs), LeadBits(bs[0]), TrailBits(bs[1]), TrailBits(bs[2]);
    var h := 64 * a + b;
    Split(a, b);
    Split(h, c);
    DivChain(v);
    TrailOf(bs[1], h);
    TrailOf(bs[2], v);
  }

  lemma Encoded4(bs: Bytes)
    requires WellFormedChar(bs) && |bs| == 4
    ensures Encode(Value(bs)) == bs
  {
    hide Value, Trail;
    ValueUnfold(bs);
    var v, a, b, c, d := Value(bs), LeadBits(bs[0]), TrailBits(bs[1]), TrailBits(bs[2]), TrailBits(bs[3]);
    var h := 64 * a + b;
    var g := 64 * h + c;
    Split(a, b);
    Split(h, c);
    Split(g, d);
    DivChain(v);
    TrailOf(bs[1], h);
    TrailOf(bs[2], g);
    TrailOf(bs[3], v);
  }

  lemma {:induction false} EncodeAllConcat(xs: seq<CodePoint>, ys: seq<CodePoint>)
    ensures EncodeAll(xs + ys) == EncodeAll(xs) + EncodeAll(ys)
    decreases |xs|
  {
    if xs == [] {
      assert xs + ys == ys;
    } else {
      assert (xs + ys)[1..] == xs[1..] + ys;
      EncodeAllConcat(xs[1..], ys);
    }
  }

  lemma EncodeAllSnoc(xs: seq<CodePoint>, v: CodePoint)
    ensures EncodeAll(xs + [v]) == EncodeAll(xs) + Encode(v)
  {
    EncodeAllConcat(xs, [v]);
    assert EncodeAll([v][1..]) == [];
  }

  /** The examples of section 7 of RFC 3629, and a character of each length. */
  lemma EncodedExamples()
    ensures Encode(0x24) == [0x24] && Encode(0xE9) == [0xC3, 0xA9] && Encode(0x2262) == [0xE2, 0x89, 0xA2]
    ensures Encode(0xD55C) == [0xED, 0x95, 0x9C] && Encode(0x233B4) == [0xF0, 0xA3, 0x8E, 0xB4]
  {
  }
}
