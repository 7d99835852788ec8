/**
 * Zigzag coding with the shifts and exclusive-ors of the code, on words of
 * any width given bit by bit from the lowest, proved to compute the numbers
 * the wire format is stated in.
 */
module ProtoBits {
  import opened ProtoWire

  type Bits = seq<bool>

  function Bit(b: bool): nat {
    if b then 1 else 0
  }

  /** The number a word stands for. */
  function Value(x: Bits): nat {
    if x == [] then 0 else Bit(x[0]) + 2 * Value(x[1..])
  }

  function Pow2(n: nat): (p: nat)
    ensures p >= 1
  {
    if n == 0 then 1 else 2 * Pow2(n - 1)
  }

  // ---------------------------------------------------------------- the operators

  /** A place of the word, where places past the highest repeat `fill`. */
  function Place(x: Bits, i: nat, fill: bool): bool {
    if i < |x| then x[i] else fill
  }

  function ShiftLeft(x: Bits, k: nat): (y: Bits)
    ensures |y| == |x|
  {
    seq(|x|, i requires 0 <= i < |x| => i >= k && x[i - k])
  }

  function ShiftRight(x: Bits, k: nat): (y: Bits)
    ensures |y| == |x|
  {
    seq(|x|, i requires 0 <= i < |x| => Place(x, i + k, false))
  }

  /** The shift right of a signed word: the sign bit comes in from above. */
  function ArithmeticShiftRight(x: Bits, k: nat): (y: Bits)
    requires x != []
    ensures |y| == |x|
  {
    seq(|x|, i requires 0 <= i < |x| => Place(x, i + k, x[|x| - 1]))
  }

  function Xor(x: Bits, y: Bits): (z: Bits)
    requires |x| == |y|
    ensures |z| == |x|
  {
    seq(|x|, i requires 0 <= i < |x| => x[i] != y[i])
  }

  function And(x: Bits, y: Bits): (z: Bits)
    requires |x| == |y|
    ensures |z| == |x|
  {
    seq(|x|, i requires 0 <= i < |x| => x[i] && y[i])
  }

  /** The number one in a word of that width. */
  function One(w: nat): (y: Bits)
    ensures |y| == w
  {
    seq(w, i requires 0 <= i < w => i == 0)
  }

  // ---------------------------------------------------------------- the coders

  /** The word doubled, with the sign bit in every place exclusive-or'ed in. */
  function ZigzagBits(x: Bits): (z: Bits)
    requires x != []
    ensures |z| == |x|
  {
    Xor(ShiftLeft(x, 1), ArithmeticShiftRight(x, |x| - 1))
  }

  /** The word halved, with the low bit in every place exclusive-or'ed in. */
  function UnzigzagBits(z: Bits): (x: Bits)
    requires z != []
    ensures |x| == |z|
  {
    var w := |z|;
    Xor(ShiftRight(z, 1), ArithmeticShiftRight(ShiftLeft(And(z, One(w)), w - 1), w - 1))
  }

  // ---------------------------------------------------------------- what they stand for

  lemma {:induction false} ValueBelow(x: Bits)
    ensures Value(x) < Pow2(|x|)
    decreases |x|
  {
    if x != [] {
      ValueBelow(x[1..]);
    }
  }

  lemma {:induction false} ValueSnoc(x: Bits, b: bool)
    ensures Value(x + [b]) == Value(x) + Bit(b) * Pow2(|x|)
    decreases |x|
  {
    if x == [] {
      assert x + [b] == [b] && [b][1..] == [];
    } else {
      assert (x + [b])[1..] == x[1..] + [b];
      ValueSnoc(x[1..], b);
    }
  }

  /** A word whose bits are all inverted. */
  function Not(x: Bits): (y: Bits)
    ensures |y| == |x|
  {
    seq(|x|, i requires 0 <= i < |x| => !x[i])
  }

  lemma {:induction false} ValueNot(x: Bits)
    ensures Value(Not(x)) == Pow2(|x|) - 1 - Value(x)
    decreases |x|
  {
    if x != [] {
      ValueNot(x[1..]);
      assert Not(x)[1..] == Not(x[1..]);
    }
  }

  /** The highest bit is set exactly in the upper half. */
  lemma ValueTop(x: Bits)
    requires x != []
    ensures Pow2(|x|) == 2 * Pow2(|x| - 1)
    ensures x[|x| - 1] <==> Value(x) >= Pow2(|x| - 1)
  {
    var low := x[..|x| - 1];
    assert x == low + [x[|x| - 1]];
    ValueSnoc(low, x[|x| - 1]);
    ValueBelow(low);
  }

  lemma LeftByOne(x: Bits)
    requires x != []
    ensures ShiftLeft(x, 1) == [false] + x[..|x| - 1]
  {
  }

  ghost predicate AllAre(s: Bits, b: bool) {
    forall i :: 0 <= i < |s| ==> s[i] == b
  }

  /** The sign bit shifted arithmetically to the lowest place fills every place. */
  lemma SignSpreads(x: Bits)
    requires x != []
    ensures AllAre(ArithmeticShiftRight(x, |x| - 1), x[|x| - 1])
  {
    var y := ArithmeticShiftRight(x, |x| - 1);
    forall i | 0 <= i < |y| ensures y[i] == x[|x| - 1] {
      assert y[i] == Place(x, i + (|x| - 1), x[|x| - 1]);
    }
  }

  lemma ValueDoubled(x: Bits)
    requires x != []
    ensures Value(ShiftLeft(x, 1)) == 2 * Value(x) - Bit(x[|x| - 1]) * Pow2(|x|)
  {
    hide ShiftLeft;
    var low, top := x[..|x| - 1], x[|x| - 1];
    assert x == low + [top];
    ValueSnoc(low, top);
    LeftByOne(x);
    assert ([false] + low)[1..] == low;
  }

  lemma ValueHalved(x: Bits)
    requires x != []
    ensures Value(ShiftRight(x, 1)) == Value(x) / 2
    ensures Value(x) % 2 == Bit(x[0])
  {
    assert ShiftRight(x, 1) == x[1..] + [false];
    ValueSnoc(x[1..], false);
  }

  /** Exclusive-or with one bit in every place inverts the word or leaves it. */
  lemma XorSpread(x: Bits, s: Bits, b: bool)
    requires |x| == |s| && AllAre(s, b)
    ensures Xor(x, s) == if b then Not(x) else x
  {
  }

  lemma ZigzagWord(x: Bits)
    requires x != []
    ensures ZigzagBits(x) == if x[|x| - 1] then Not(ShiftLeft(x, 1)) else ShiftLeft(x, 1)
  {
    hide ShiftLeft, Xor, Not, ArithmeticShiftRight;
    SignSpreads(x);
    XorSpread(ShiftLeft(x, 1), ArithmeticShiftRight(x, |x| - 1), x[|x| - 1]);
  }

  lemma UnzigzagWord(z: Bits)
    requires z != []
    ensures UnzigzagBits(z) == if z[0] then Not(ShiftRight(z, 1)) else ShiftRight(z, 1)
  {
    hide ShiftRight, Xor, Not, ArithmeticShiftRight;
    var w := |z|;
    var low := ShiftLeft(And(z, One(w)), w - 1);
    assert low[w - 1] == z[0];
    SignSpreads(low);
    XorSpread(ShiftRight(z, 1), ArithmeticShiftRight(low, w - 1), z[0]);
  }

  /** The encoder computes the zigzag number of the word, whatever its width. */
  lemma ZigzagBitsAre(x: Bits)
    requires x != []
    ensures Value(x) < 2 * Pow2(|x| - 1)
    ensures Value(ZigzagBits(x)) == Zigzag(Value(x), Pow2(|x| - 1))
  {
    hide ShiftLeft, Not, Value, Pow2, ZigzagBits;
    ValueBelow(x);
    ValueTop(x);
    ValueDoubled(x);
    ZigzagWord(x);
    ValueNot(ShiftLeft(x, 1));
  }

  /** The decoder computes its inverse. */
  lemma UnzigzagBitsAre(z: Bits)
    requires z != []
    ensures Value(z) < 2 * Pow2(|z| - 1)
    ensures Value(UnzigzagBits(z)) == Unzigzag(Value(z), Pow2(|z| - 1))
  {
    hide ShiftRight, Not, Value, Pow2, UnzigzagBits;
    ValueBelow(z);
    ValueTop(z);
    ValueHalved(z);
    UnzigzagWord(z);
    ValueNot(ShiftRight(z, 1));
  }

  lemma {:induction false} SameValue(x: Bits, y: Bits)
    requires |x| == |y| && Value(x) == Value(y)
    ensures x == y
    decreases |x|
  {
    if x != [] {
      assert x[0] == y[0];
      SameValue(x[1..], y[1..]);
      assert x == [x[0]] + x[1..] && y == [y[0]] + y[1..];
    }
  }

  /** Encoder and decoder undo each other on every word of every width. */
  lemma ZigzagBitsRoundTrip(x: Bits)
    requires x != []
    ensures UnzigzagBits(ZigzagBits(x)) == x
    ensures ZigzagBits(UnzigzagBits(x)) == x
  {
    hide ZigzagBits, UnzigzagBits;
    ZigzagBitsAre(x);
    UnzigzagBitsAre(ZigzagBits(x));
    UnzigzagBitsAre(x);
    ZigzagBitsAre(UnzigzagBits(x));
    ZigzagMeaning(Value(x), Value(x), Pow2(|x| - 1));
    SameValue(UnzigzagBits(ZigzagBits(x)), x);
    SameValue(ZigzagBits(UnzigzagBits(x)), x);
  }

  /** The two widths of the format. */
  lemma Widths()
    ensures Pow2(31) == TWO_31 && Pow2(63) == TWO_63
  {
    assert Pow2(7) == 128;
    assert Pow2(15) == 256 * Pow2(7);
    assert Pow2(23) == 256 * Pow2(15);
    assert Pow2(31) == 256 * Pow2(23);
    assert Pow2(39) == 256 * Pow2(31);
    assert Pow2(47) == 256 * Pow2(39);
    assert Pow2(55) == 256 * Pow2(47);
    assert Pow2(63) == 256 * Pow2(55);
  }
}
