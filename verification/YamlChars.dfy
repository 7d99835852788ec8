/** The character tests of the YAML package, on bytes; past the end of the text every test sees NUL. */
module YamlChars {
  import opened Wrappers
  import opened Utf8

  const TAB: Byte := 9
  const LF: Byte := 10
  const CR: Byte := 13
  const SPACE: Byte := 32
  const QUOTE: Byte := 34
  const BACKSLASH: Byte := 92

  function At(b: Bytes, i: nat): Byte { if i < |b| then b[i] else 0 }

  predicate IsAscii(b: Bytes, i: nat) { At(b, i) <= 0x7F }

  predicate IsPrintable(b: Bytes, i: nat) {
    || At(b, i) == 0x0A
    || 0x20 <= At(b, i) <= 0x7E
    || (At(b, i) == 0xC2 && At(b, i + 1) >= 0xA0)
    || 0xC2 < At(b, i) < 0xED
    || (At(b, i) == 0xED && At(b, i + 1) < 0xA0)
    || At(b, i) == 0xEE
    || (At(b, i) == 0xEF
        && !(At(b, i + 1) == 0xBB && At(b, i + 2) == 0xBF)
        && !(At(b, i + 1) == 0xBF && (At(b, i + 2) == 0xBE || At(b, i + 2) == 0xBF)))
  }

  predicate IsZ(b: Bytes, i: nat) { At(b, i) == 0 }

  /** The source looks at the start of the text whatever the position. */
  predicate IsBom(b: Bytes) { At(b, 0) == 0xEF && At(b, 1) == 0xBB && At(b, 2) == 0xBF }

  predicate IsBlank(b: Bytes, i: nat) { At(b, i) == SPACE || At(b, i) == TAB }

  predicate IsBreak(b: Bytes, i: nat) {
    || At(b, i) == CR
    || At(b, i) == LF
    || (At(b, i) == 0xC2 && At(b, i + 1) == 0x85)
    || (At(b, i) == 0xE2 && At(b, i + 1) == 0x80 && (At(b, i + 2) == 0xA8 || At(b, i + 2) == 0xA9))
  }

  predicate IsBlankz(b: Bytes, i: nat) { IsBlank(b, i) || IsBreak(b, i) || IsZ(b, i) }

  //
  // The same tests on characters.
  //

  predicate BreakChar(v: int) { v == 0x0D || v == 0x0A || v == 0x85 || v == 0x2028 || v == 0x2029 }

  predicate PrintableChar(v: int) {
    v == 0x0A || 0x20 <= v <= 0x7E || 0xA0 <= v <= 0xD7FF || (0xE000 <= v <= 0xFFFD && v != 0xFEFF)
  }

  lemma Bytes2(v: CodePoint, b: Bytes)
    requires 0x80 <= v <= 0x7FF && |b| >= 2 && b[..2] == Encode(v)
    ensures b[0] == 0xC0 + v / 64 && b[1] == 0x80 + v % 64 && v == 64 * (b[0] as int - 0xC0) + (b[1] as int - 0x80)
  {
    assert b[0] == b[..2][0] && b[1] == b[..2][1];
    Recombine(v);
  }

  lemma Bytes3(v: CodePoint, b: Bytes)
    requires 0x800 <= v <= 0xFFFF && |b| >= 3 && b[..3] == Encode(v)
    ensures v == 4096 * (b[0] as int - 0xE0) + 64 * (b[1] as int - 0x80) + (b[2] as int - 0x80)
    ensures 0xE0 <= b[0] <= 0xEF && 0x80 <= b[1] <= 0xBF && 0x80 <= b[2] <= 0xBF
  {
    assert b[0] == b[..3][0] && b[1] == b[..3][1] && b[2] == b[..3][2];
    DivChain(v);
    Recombine(v);
  }

  /** The tests on the bytes of a character decide the same question about the character. */
  lemma CharTests(v: CodePoint, b: Bytes)
    requires Encode(v) <= b
    ensures IsBreak(b, 0) <==> BreakChar(v)
    ensures IsPrintable(b, 0) <==> PrintableChar(v)
    ensures IsBlank(b, 0) <==> v == 0x20 || v == 0x09
    ensures IsZ(b, 0) <==> v == 0
    ensures IsAscii(b, 0) <==> v <= 0x7F
  {
    var e := Encode(v);
    assert b[..|e|] == e && b[0] == e[0];
    if 0x80 <= v <= 0x7FF {
      Bytes2(v, b);
    } else if 0x800 <= v <= 0xFFFF {
      Bytes3(v, b);
    }
  }

  lemma {:induction false} BomTest(vs: seq<CodePoint>)
    ensures IsBom(EncodeAll(vs)) <==> vs != [] && vs[0] == 0xFEFF
  {
    if vs != [] {
      var b, v := EncodeAll(vs), vs[0];
      assert Encode(v) <= b && b[..|Encode(v)|] == Encode(v) && b[0] == Encode(v)[0];
      if 0x800 <= v <= 0xFFFF { Bytes3(v, b); }
    }
  }
}
