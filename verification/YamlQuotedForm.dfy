/** What the double-quoted writer puts on the line: when it keeps to one line and to ASCII, and what it leaves as it is. */
module YamlQuotedForm {
  import opened Wrappers
  import opened Utf8
  import opened YamlChars
  import opened YamlQuoted

  predicate OneLine(b: Bytes) { forall i | 0 <= i < |b| :: b[i] != LF && b[i] != CR }

  predicate Ascii(b: Bytes) { forall i | 0 <= i < |b| :: 0x20 <= b[i] <= 0x7E }

  lemma {:induction false} HexIsAscii(v: nat, n: nat)
    ensures Ascii(Hex(v, n))
  {
    if n > 0 { HexIsAscii(v / 16, n - 1); }
  }

  lemma EscapeIsAscii(v: CodePoint, cfg: Config)
    ensures Ascii(RenderPiece(Esc(v), cfg))
  {
    hide Hex;
    assert IsScalarValue(v);
    HexIsAscii(v, 2);
    HexIsAscii(v, 4);
    HexIsAscii(v, 8);
    if ShortEscape(v).Some? { ShortIsLetter(v); }
  }

  lemma AsciiIsOneLine(b: Bytes)
    requires Ascii(b)
    ensures OneLine(b)
  {
  }

  lemma RawIsOneLine(v: CodePoint)
    requires Unmistakable(v)
    ensures OneLine(Encode(v)) && (v <= 0x7F ==> Ascii(Encode(v)))
  {
    assert IsScalarValue(v);
  }

  /** The piece that stands at `i`, whatever the column. */
  lemma {:induction false} PieceAt(vs: seq<CodePoint>, i: nat, column: int, spaces: bool, cfg: Config, k: nat)
    requires i <= k < |vs|
    ensures |Pieces(vs, i, column, spaces, cfg)| == |vs| - i
    ensures exists c, s :: Pieces(vs, i, column, spaces, cfg)[k - i] == PieceFor(vs, k, c, s, cfg)
    decreases k - i
  {
    var p := PieceFor(vs, i, column, spaces, cfg);
    PiecesCount(vs, i, column, spaces, cfg);
    if i < k {
      PieceAt(vs, i + 1, ColumnAfter(p, column, cfg), p.Blank? || p.Fold?, cfg, k);
    }
  }

  lemma {:induction false} PiecesCount(vs: seq<CodePoint>, i: nat, column: int, spaces: bool, cfg: Config)
    requires i <= |vs|
    ensures |Pieces(vs, i, column, spaces, cfg)| == |vs| - i
    decreases |vs| - i
  {
    if i < |vs| {
      var p := PieceFor(vs, i, column, spaces, cfg);
      PiecesCount(vs, i + 1, ColumnAfter(p, column, cfg), p.Blank? || p.Fold?, cfg);
    }
  }

  /** Where breaks are not allowed the text stays on its line, and without unicode it is all ASCII. */
  lemma PieceForm(vs: seq<CodePoint>, k: nat, c: int, s: bool, cfg: Config)
    requires k < |vs|
    ensures var b := RenderPiece(PieceFor(vs, k, c, s, cfg), cfg);
      && (!cfg.allowBreaks ==> OneLine(b))
      && (!cfg.allowBreaks && !cfg.unicode ==> Ascii(b))
  {
    hide Encode, EscapeCode, PrintableChar, BreakChar;
    match PieceFor(vs, k, c, s, cfg) {
      case Esc(v) =>
        EscapeIsAscii(v, cfg);
        AsciiIsOneLine(RenderPiece(Esc(v), cfg));
      case Raw(v) => RawIsOneLine(v);
      case _ =>
    }
  }

  lemma {:induction false} RenderForm(ps: seq<Piece>, cfg: Config, ascii: bool)
    requires forall k | 0 <= k < |ps| :: OneLine(RenderPiece(ps[k], cfg)) && (ascii ==> Ascii(RenderPiece(ps[k], cfg)))
    ensures OneLine(Render(ps, cfg)) && (ascii ==> Ascii(Render(ps, cfg)))
    decreases |ps|
  {
    hide RenderPiece;
    if ps != [] { RenderForm(ps[1..], cfg, ascii); }
  }

  lemma WrittenForm(vs: seq<CodePoint>, column: int, cfg: Config)
    requires !cfg.allowBreaks
    ensures OneLine(Written(vs, column, cfg)) && (!cfg.unicode ==> Ascii(Written(vs, column, cfg)))
  {
    hide RenderPiece, PieceFor, Pieces, OneLine, Ascii, Render;
    var ps := Pieces(vs, 0, column, false, cfg);
    PiecesCount(vs, 0, column, false, cfg);
    forall k | 0 <= k < |ps| ensures OneLine(RenderPiece(ps[k], cfg)) && (!cfg.unicode ==> Ascii(RenderPiece(ps[k], cfg))) {
      PieceAt(vs, 0, column, false, cfg, k);
      var c, s :| ps[k - 0] == PieceFor(vs, k, c, s, cfg);
      PieceForm(vs, k, c, s, cfg);
    }
    RenderForm(ps, cfg, !cfg.unicode);
  }

  /** Characters that are written as they are. */
  predicate Ordinary(v: int) { 0x20 <= v <= 0x7E && v != 0x22 && v != 0x5C }

  /** Printable ASCII but for the quote and the backslash is written as it is. */
  lemma {:induction false} OrdinaryVerbatim(vs: seq<CodePoint>, i: nat, column: int, spaces: bool, cfg: Config)
    requires i <= |vs| && !cfg.allowBreaks && forall k | 0 <= k < |vs| :: Ordinary(vs[k])
    ensures Render(Pieces(vs, i, column, spaces, cfg), cfg) == EncodeAll(vs[i..])
    decreases |vs| - i
  {
    hide Encode;
    if i < |vs| {
      var p := PieceFor(vs, i, column, spaces, cfg);
      OrdinaryVerbatim(vs, i + 1, ColumnAfter(p, column, cfg), p.Blank? || p.Fold?, cfg);
      var rest := Pieces(vs, i + 1, ColumnAfter(p, column, cfg), p.Blank? || p.Fold?, cfg);
      assert Pieces(vs, i, column, spaces, cfg)[1..] == rest;
      AsciiEncoded(vs[i]);
      assert vs[i..][1..] == vs[i + 1..];
    }
  }

  lemma WrittenVerbatim(vs: seq<CodePoint>, column: int, cfg: Config)
    requires !cfg.allowBreaks && forall k | 0 <= k < |vs| :: Ordinary(vs[k])
    ensures Written(vs, column, cfg) == EncodeAll(vs)
  {
    OrdinaryVerbatim(vs, 0, column, false, cfg);
    assert vs[0..] == vs;
  }

  /** The escapes of the writer: a letter where there is one, else the digits of the number, capitals for letters. */
  lemma EscapesWritten()
    ensures EscapeCode(0x0A) == [110] && EscapeCode(0x09) == [116] && EscapeCode(0x22) == [QUOTE] && EscapeCode(0x85) == [78]
    ensures EscapeCode(0x7F) == [120, 55, 70]                              // x7F
    ensures EscapeCode(0x200B) == [117, 50, 48, 48, 66]                    // u200B
    ensures EscapeCode(0x1F600) == [85, 48, 48, 48, 49, 70, 54, 48, 48]    // U0001F600
  {
    hide Hex;
    TwoDigits(0x7F);
    FourDigits(0x200B);
    FourDigits(0x1F600);
    FourDigits(0x1);
    EightDigits(0x1F600);
  }

  lemma TwoDigits(v: nat)
    ensures Hex(v, 2) == [HexDigit(v / 16 % 16), HexDigit(v % 16)]
  {
    assert Hex(v / 16, 1) == [] + [HexDigit(v / 16 % 16)];
  }

  lemma FourDigits(v: nat)
    ensures Hex(v, 4) == [HexDigit(v / 16 / 16 / 16 % 16), HexDigit(v / 16 / 16 % 16), HexDigit(v / 16 % 16), HexDigit(v % 16)]
  {
    TwoDigits(v / 16 / 16);
    assert Hex(v / 16, 3) == Hex(v / 16 / 16, 2) + [HexDigit(v / 16 % 16)];
    assert Hex(v, 4) == Hex(v / 16, 3) + [HexDigit(v % 16)];
  }

  lemma EightDigits(v: nat)
    ensures Hex(v, 8) == Hex(v / 16 / 16 / 16 / 16, 4) + Hex(v, 4)
  {
    FourDigits(v);
    var a, b, c, d := v / 16, v / 16 / 16, v / 16 / 16 / 16, v / 16 / 16 / 16 / 16;
    assert Hex(c, 5) == Hex(d, 4) + [HexDigit(c % 16)];
    assert Hex(b, 6) == Hex(c, 5) + [HexDigit(b % 16)];
    assert Hex(a, 7) == Hex(b, 6) + [HexDigit(a % 16)];
    assert Hex(v, 8) == Hex(a, 7) + [HexDigit(v % 16)];
  }

  /** All one-letter escapes, the writer's and those it does not use. */
  lemma EscapesRead()
    ensures ShortValue(48) == Some(Encode(0)) && ShortValue(97) == Some(Encode(7)) && ShortValue(98) == Some(Encode(8))
    ensures ShortValue(116) == Some(Encode(9)) && ShortValue(9) == Some(Encode(9)) && ShortValue(110) == Some(Encode(10))
    ensures ShortValue(118) == Some(Encode(11)) && ShortValue(102) == Some(Encode(12)) && ShortValue(114) == Some(Encode(13))
    ensures ShortValue(101) == Some(Encode(0x1B)) && ShortValue(32) == Some(Encode(0x20)) && ShortValue(34) == Some(Encode(0x22))
    ensures ShortValue(39) == Some(Encode(0x27)) && ShortValue(92) == Some(Encode(0x5C)) && ShortValue(78) == Some(Encode(0x85))
    ensures ShortValue(95) == Some(Encode(0xA0)) && ShortValue(76) == Some(Encode(0x2028)) && ShortValue(80) == Some(Encode(0x2029))
  {
  }
}
