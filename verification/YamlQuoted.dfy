/**
 Double-quoted scalars: what the writer writes, what the scanner reads, and that reading undoes writing.

 The writer's output is described piece by piece (`Pieces`, `Render`), the scanner by three mutually recursive
 functions, one per loop of the source.  `ReadsBack` is the round trip.
 */
module YamlQuoted {
  import opened Wrappers
  import opened Utf8
  import opened YamlChars

  //
  // Escapes.
  //

  function HexDigit(d: nat): Byte
    requires d < 16
  {
    if d < 10 then 48 + d else 65 + d - 10
  }

  predicate IsHex(b: Byte) { 48 <= b <= 57 || 65 <= b <= 70 || 97 <= b <= 102 }

  function HexValue(b: Byte): nat
    requires IsHex(b)
  {
    if 65 <= b <= 70 then b - 65 + 10 else if 97 <= b <= 102 then b - 97 + 10 else b - 48
  }

  function Pow16(n: nat): nat { if n == 0 then 1 else 16 * Pow16(n - 1) }

  /** The `n` low hexadecimal digits of `v`. */
  function Hex(v: nat, n: nat): (s: Bytes)
    ensures |s| == n
  {
    if n == 0 then [] else Hex(v / 16, n - 1) + [HexDigit(v % 16)]
  }

  predicate AllHex(s: Bytes) { forall i | 0 <= i < |s| :: IsHex(s[i]) }

  function FromHex(s: Bytes): nat
    requires AllHex(s)
  {
    if s == [] then 0 else 16 * FromHex(s[..|s| - 1]) + HexValue(s[|s| - 1])
  }

  lemma {:induction false} HexRoundTrip(v: nat, n: nat)
    requires v < Pow16(n)
    ensures AllHex(Hex(v, n)) && FromHex(Hex(v, n)) == v
  {
    if n > 0 {
      HexRoundTrip(v / 16, n - 1);
      var s := Hex(v, n);
      assert s[..n - 1] == Hex(v / 16, n - 1);
    }
  }

  /** The letter of the one-character escapes the writer uses. */
  function ShortEscape(v: int): Option<Byte> {
    match v
    case 0x00 => Some(48)    // 0
    case 0x07 => Some(97)    // a
    case 0x08 => Some(98)    // b
    case 0x09 => Some(116)   // t
    case 0x0A => Some(110)   // n
    case 0x0B => Some(118)   // v
    case 0x0C => Some(102)   // f
    case 0x0D => Some(114)   // r
    case 0x1B => Some(101)   // e
    case 0x22 => Some(QUOTE)
    case 0x5C => Some(BACKSLASH)
    case 0x85 => Some(78)    // N
    case 0xA0 => Some(95)    // _
    case 0x2028 => Some(76)  // L
    case 0x2029 => Some(80)  // P
    case _ => None
  }

  /** What is written after the backslash. */
  function EscapeCode(v: CodePoint): (s: Bytes)
    ensures |s| >= 1
  {
    assert IsScalarValue(v);
    var short := ShortEscape(v);
    if short.Some? then [short.value]
    else if v <= 0xFF then [120] + Hex(v, 2)     // x
    else if v <= 0xFFFF then [117] + Hex(v, 4)   // u
    else [85] + Hex(v, 8)                        // U
  }

  /** What the scanner reads for a one-character escape. */
  function ShortValue(c: Byte): Option<Bytes> {
    match c
    case 48 => Some([0])
    case 97 => Some([0x07])
    case 98 => Some([0x08])
    case 116 => Some([0x09])
    case 9 => Some([0x09])
    case 110 => Some([0x0A])
    case 118 => Some([0x0B])
    case 102 => Some([0x0C])
    case 114 => Some([0x0D])
    case 101 => Some([0x1B])
    case 32 => Some([0x20])
    case 34 => Some([QUOTE])
    case 39 => Some([39])
    case 92 => Some([BACKSLASH])
    case 78 => Some([0xC2, 0x85])
    case 95 => Some([0xC2, 0xA0])
    case 76 => Some([0xE2, 0x80, 0xA8])
    case 80 => Some([0xE2, 0x80, 0xA9])
    case _ => None
  }

  function CodeLength(c: Byte): nat {
    if c == 120 then 2 else if c == 117 then 4 else if c == 85 then 8 else 0
  }

  //
  // The writer.
  //

  datatype LineBreak = CrBreak | LnBreak | CrLnBreak

  function BreakBytes(b: LineBreak): Bytes {
    match b case CrBreak => [CR] case LnBreak => [LF] case CrLnBreak => [CR, LF]
  }

  datatype Config = Config(indent: nat, bestWidth: int, unicode: bool, lineBreak: LineBreak, allowBreaks: bool)

  /** How one character is written; a folded space may announce that the next space is escaped. */
  datatype Piece = Esc(v: CodePoint) | Raw(v: CodePoint) | Blank | Fold(escapeNext: bool)

  function Spaces(n: nat): Bytes { if n == 0 then [] else [SPACE] + Spaces(n - 1) }

  function RenderPiece(p: Piece, cfg: Config): Bytes {
    match p
    case Esc(v) => [BACKSLASH] + EscapeCode(v)
    case Raw(v) => Encode(v)
    case Blank => [SPACE]
    case Fold(e) => BreakBytes(cfg.lineBreak) + Spaces(cfg.indent) + if e then [BACKSLASH] else []
  }

  function Render(ps: seq<Piece>, cfg: Config): Bytes {
    if ps == [] then [] else RenderPiece(ps[0], cfg) + Render(ps[1..], cfg)
  }

  function PieceValue(p: Piece): CodePoint {
    match p case Esc(v) => v case Raw(v) => v case Blank => 0x20 case Fold(_) => 0x20
  }

  function Values(ps: seq<Piece>): seq<CodePoint> {
    if ps == [] then [] else [PieceValue(ps[0])] + Values(ps[1..])
  }

  /** Characters the writer escapes; `bom` says whether the text begins with a byte order mark. */
  predicate MustEscape(v: int, unicode: bool, bom: bool) {
    !PrintableChar(v) || (!unicode && v > 0x7F) || bom || BreakChar(v) || v == 0x22 || v == 0x5C
  }

  /** The piece for the character at `i`, given the column and whether a space was written just before. */
  function PieceFor(vs: seq<CodePoint>, i: nat, column: int, spaces: bool, cfg: Config): Piece
    requires i < |vs|
  {
    if MustEscape(vs[i], cfg.unicode, vs[0] == 0xFEFF) then Esc(vs[i])
    else if vs[i] == 0x20 then
      if cfg.allowBreaks && !spaces && column > cfg.bestWidth && 0 < i < |vs| - 1
      then Fold(vs[i + 1] == 0x20)
      else Blank
    else Raw(vs[i])
  }

  function ColumnAfter(p: Piece, column: int, cfg: Config): int {
    match p
    case Esc(v) => column + 1 + |EscapeCode(v)|
    case Raw(_) => column + 1
    case Blank => column + 1
    case Fold(e) => cfg.indent + if e then 1 else 0
  }

  /** The pieces for the characters from `i` on. */
  function Pieces(vs: seq<CodePoint>, i: nat, column: int, spaces: bool, cfg: Config): seq<Piece>
    requires i <= |vs|
    decreases |vs| - i
  {
    if i == |vs| then []
    else
      var p := PieceFor(vs, i, column, spaces, cfg);
      [p] + Pieces(vs, i + 1, ColumnAfter(p, column, cfg), p.Blank? || p.Fold?, cfg)
  }

  /** Between the quotes. */
  function Written(vs: seq<CodePoint>, column: int, cfg: Config): Bytes { Render(Pieces(vs, 0, column, false, cfg), cfg) }

  //
  // What makes pieces readable.
  //

  predicate Unmistakable(v: int) { PrintableChar(v) && !BreakChar(v) && v != 0x20 && v != 0x22 && v != 0x5C }

  predicate IsBlankPiece(p: Piece) { p.Blank? || p.Fold? }

  /**
   A raw character is not mistaken for anything else; a line is never folded right after a blank; a fold
   followed by a space escapes it.
   */
  predicate Admissible(ps: seq<Piece>, afterBlank: bool)
    decreases |ps|
  {
    if ps == [] then true
    else match ps[0]
      case Esc(_) => Admissible(ps[1..], false)
      case Raw(v) => Unmistakable(v) && Admissible(ps[1..], false)
      case Blank => Admissible(ps[1..], true)
      case Fold(e) =>
        && !afterBlank
        && (if e then |ps| > 1 && ps[1].Blank? && Admissible(ps[2..], true)
            else (|ps| == 1 || !IsBlankPiece(ps[1])) && Admissible(ps[1..], true))
  }

  lemma {:induction false} PiecesAdmissible(vs: seq<CodePoint>, i: nat, column: int, spaces: bool, cfg: Config)
    requires i <= |vs|
    ensures Admissible(Pieces(vs, i, column, spaces, cfg), spaces)
    ensures Values(Pieces(vs, i, column, spaces, cfg)) == vs[i..]
    decreases |vs| - i
  {
    if i < |vs| {
      var p := PieceFor(vs, i, column, spaces, cfg);
      var column' := ColumnAfter(p, column, cfg);
      PiecesAdmissible(vs, i + 1, column', p.Blank? || p.Fold?, cfg);
      var rest := Pieces(vs, i + 1, column', p.Blank? || p.Fold?, cfg);
      assert Pieces(vs, i, column, spaces, cfg)[1..] == rest;
      if p.Fold? {
        assert rest[0] == PieceFor(vs, i + 1, column', true, cfg);
        if p.escapeNext { assert Pieces(vs, i, column, spaces, cfg)[2..] == rest[1..]; }
      }
    }
  }

  //
  // The scanner.
  //

  datatype ScanResult = Done(value: Bytes, rest: Bytes) | Bad

  /** "---" or "..." followed by a blank, a break or the end. */
  predicate DocumentIndicator(inp: Bytes) {
    && ((At(inp, 0) == 45 && At(inp, 1) == 45 && At(inp, 2) == 45) || (At(inp, 0) == 46 && At(inp, 1) == 46 && At(inp, 2) == 46))
    && IsBlankz(inp, 3)
  }

  /** The bytes taken by a line break, and those it stands for. */
  function BreakLength(inp: Bytes): (n: nat)
    requires IsBreak(inp, 0)
    ensures 1 <= n <= |inp|
  {
    if At(inp, 0) == CR && At(inp, 1) == LF then 2
    else if At(inp, 0) == CR || At(inp, 0) == LF then 1
    else if At(inp, 0) == 0xC2 then 2
    else 3
  }

  function BreakText(inp: Bytes): Bytes
    requires IsBreak(inp, 0)
  {
    if At(inp, 0) == 0xE2 then inp[..3] else [LF]
  }

  /** Blanks and breaks between two runs of text: kept, dropped, or folded to a space. */
  function Join(s: Bytes, leading: bool, ws: Bytes, leadingBreak: Bytes, trailingBreaks: Bytes): Bytes {
    if leading then
      if leadingBreak != [] && leadingBreak[0] == LF then
        if trailingBreaks == [] then s + [SPACE] else s + trailingBreaks
      else s + leadingBreak + trailingBreaks
    else s + ws
  }

  /** The start of the main loop; `s` is what has been read. */
  function Outer(inp: Bytes, column: nat, s: Bytes): ScanResult
    decreases |inp|, 2
  {
    if column == 0 && DocumentIndicator(inp) then Bad
    else if IsZ(inp, 0) then Bad
    else NonBlank(inp, column, s)
  }

  /** The loop over non-blank characters. */
  function NonBlank(inp: Bytes, column: nat, s: Bytes): ScanResult
    decreases |inp|, 1
  {
    if IsZ(inp, 0) then Bad
    else if IsBlankz(inp, 0) then Blanks(inp, column, s, false, [], [], [])
    else if inp[0] == QUOTE then Done(s, inp[1..])
    else if inp[0] == BACKSLASH && IsBreak(inp, 1) then
      assert IsBreak(inp[1..], 0);
      var rest := inp[1..][BreakLength(inp[1..])..];
      if At(rest, 0) == QUOTE then Done(s, rest[1..]) else Gap(rest, 0, s, true, [], [], [])
    else if inp[0] == BACKSLASH then Escape(inp, column, s)
    else
      var w := Width(inp[0]);
      if w == 0 || w > |inp| then Bad else NonBlank(inp[w..], column + 1, s + inp[..w])
  }

  /** An escape sequence. */
  function Escape(inp: Bytes, column: nat, s: Bytes): ScanResult
    requires inp != []
    decreases |inp|, 0
  {
    var c := At(inp, 1);
    var short, n := ShortValue(c), CodeLength(c);
    if |inp| < 2 then Bad
    else if short.Some? then NonBlank(inp[2..], column + 2, s + short.value)
    else if n == 0 || |inp| < 2 + n || !AllHex(inp[2..2 + n]) then Bad
    else
      var v := FromHex(inp[2..2 + n]);
      if !IsScalarValue(v) then Bad else NonBlank(inp[2 + n..], column + 2 + n, s + Encode(v))
  }

  /** Either more blanks, or the end of them. */
  function Gap(inp: Bytes, column: nat, s: Bytes, leading: bool, ws: Bytes, leadingBreak: Bytes, trailingBreaks: Bytes): ScanResult
    decreases |inp|, 3
  {
    if IsBlank(inp, 0) || IsBreak(inp, 0) then Blanks(inp, column, s, leading, ws, leadingBreak, trailingBreaks)
    else Outer(inp, column, Join(s, leading, ws, leadingBreak, trailingBreaks))
  }

  /** One step of the loop over blanks and breaks. */
  function Blanks(inp: Bytes, column: nat, s: Bytes, leading: bool, ws: Bytes, leadingBreak: Bytes, trailingBreaks: Bytes): ScanResult
    requires IsBlank(inp, 0) || IsBreak(inp, 0)
    decreases |inp|, 0
  {
    if IsBlank(inp, 0) then
      Gap(inp[1..], column + 1, s, leading, if leading then ws else ws + [inp[0]], leadingBreak, trailingBreaks)
    else
      var rest, text := inp[BreakLength(inp)..], BreakText(inp);
      if !leading then Gap(rest, 0, s, true, [], leadingBreak + text, trailingBreaks)
      else Gap(rest, 0, s, true, ws, leadingBreak, trailingBreaks + text)
  }

  //
  // Reading undoes writing.
  //

  /** One more hexadecimal digit. */
  lemma HexSnoc(s: Bytes, k: nat)
    requires k < |s| && AllHex(s[..k]) && IsHex(s[k])
    ensures AllHex(s[..k + 1]) && FromHex(s[..k + 1]) == 16 * FromHex(s[..k]) + HexValue(s[k])
  {
    assert s[..k + 1][..k] == s[..k];
  }

  lemma NotHex(s: Bytes, k: nat)
    requires k < |s| && !IsHex(s[k])
    ensures !AllHex(s)
  {
  }

  /** What follows the pieces: the closing quote and any further input. */
  function Closed(ps: seq<Piece>, cfg: Config, tail: Bytes): Bytes { Render(ps, cfg) + ([QUOTE] + tail) }

  lemma ClosedCons(ps: seq<Piece>, cfg: Config, tail: Bytes)
    requires ps != []
    ensures Closed(ps, cfg, tail) == RenderPiece(ps[0], cfg) + Closed(ps[1..], cfg, tail)
  {
  }

  lemma ShortReads(v: CodePoint)
    requires ShortEscape(v).Some?
    ensures ShortValue(ShortEscape(v).value) == Some(Encode(v))
  {
    hide Encode;
    assert IsScalarValue(v);
    if v < 0x80 {
      AsciiEncoded(v);
    } else {
      SpecialsEncoded();
    }
  }

  lemma AsciiEncoded(v: CodePoint)
    requires v < 0x80
    ensures 0 <= v && Encode(v) == [v]
  {
    assert IsScalarValue(v);
  }

  lemma SpecialsEncoded()
    ensures Encode(0x85) == [0xC2, 0x85] && Encode(0xA0) == [0xC2, 0xA0]
    ensures Encode(0x2028) == [0xE2, 0x80, 0xA8] && Encode(0x2029) == [0xE2, 0x80, 0xA9]
  {
  }

  lemma ShortIsLetter(v: CodePoint)
    requires ShortEscape(v).Some?
    ensures 32 < ShortEscape(v).value < 0x80
  {
  }

  lemma HexReads(v: CodePoint)
    requires ShortEscape(v).None?
    ensures var code := EscapeCode(v);
            var n := CodeLength(code[0]);
            && ShortValue(code[0]).None? && n > 0 && |code| == 1 + n
            && AllHex(code[1..]) && FromHex(code[1..]) == v
  {
    assert IsScalarValue(v);
    assert Pow16(2) == 0x100;
    assert Pow16(4) == 0x10000;
    assert Pow16(6) == 0x1000000;
    assert Pow16(8) >= Pow16(6);
    var n := if v <= 0xFF then 2 else if v <= 0xFFFF then 4 else 8;
    HexRoundTrip(v, n);
    assert EscapeCode(v)[1..] == Hex(v, n);
  }

  /** A written escape is read back whole. */
  lemma EscapeReads(v: CodePoint, rest: Bytes, column: nat, s: Bytes)
    ensures NonBlank([BACKSLASH] + EscapeCode(v) + rest, column, s) ==
            NonBlank(rest, column + 1 + |EscapeCode(v)|, s + Encode(v))
  {
    hide NonBlank, Encode, ShortEscape, ShortValue, AllHex, FromHex, Hex;
    var code := EscapeCode(v);
    var inp := [BACKSLASH] + code + rest;
    assert inp[1] == code[0] && inp[1 + |code|..] == rest;
    if ShortEscape(v).Some? {
      ShortReads(v);
      ShortIsLetter(v);
      assert Escape(inp, column, s) == NonBlank(rest, column + 2, s + Encode(v));
    } else {
      HexReads(v);
      assert inp[2..1 + |code|] == code[1..];
      assert Escape(inp, column, s) == NonBlank(rest, column + 1 + |code|, s + Encode(v));
    }
    EscapeEntered(inp, column, s);
  }

  lemma EscapeEntered(inp: Bytes, column: nat, s: Bytes)
    requires |inp| >= 2 && inp[0] == BACKSLASH && inp[1] < 0x80 && inp[1] != CR && inp[1] != LF
    ensures NonBlank(inp, column, s) == Escape(inp, column, s)
  {
    hide Escape, Gap, Blanks;
  }

  lemma EscapedSpaceReads(rest: Bytes, column: nat, s: Bytes)
    ensures NonBlank([BACKSLASH, SPACE] + rest, column, s) == NonBlank(rest, column + 2, s + [SPACE])
  {
    var inp := [BACKSLASH, SPACE] + rest;
    assert inp[2..] == rest;
    EscapeEntered(inp, column, s);
    hide NonBlank;
    assert Escape(inp, column, s) == NonBlank(rest, column + 2, s + [SPACE]);
  }

  lemma RawReads(v: CodePoint, rest: Bytes, column: nat, s: Bytes)
    requires Unmistakable(v)
    ensures NonBlank(Encode(v) + rest, column, s) == NonBlank(rest, column + 1, s + Encode(v))
  {
    var inp := Encode(v) + rest;
    CharTests(v, inp);
    RawNotSpecial(v);
    assert inp[0] == Encode(v)[0] && inp[|Encode(v)|..] == rest && inp[..|Encode(v)|] == Encode(v);
    hide Escape, Gap, Blanks, Encode, IsBreak;
  }

  lemma BlankReads(rest: Bytes, column: nat, s: Bytes)
    ensures NonBlank([SPACE] + rest, column, s) == Gap(rest, column + 1, s, false, [SPACE], [], [])
  {
    var inp := [SPACE] + rest;
    assert inp[1..] == rest && [] + [SPACE] == [SPACE];
  }

  /** The first byte of text that is not a blank piece is neither blank, break nor NUL. */
  lemma FirstByte(ps: seq<Piece>, cfg: Config, tail: Bytes)
    requires Admissible(ps, false) && (ps == [] || !IsBlankPiece(ps[0]))
    ensures !IsBlankz(Closed(ps, cfg, tail), 0)
  {
    if ps != [] {
      ClosedCons(ps, cfg, tail);
      if ps[0].Raw? {
        assert Encode(ps[0].v) <= Closed(ps, cfg, tail);
        CharTests(ps[0].v, Closed(ps, cfg, tail));
      }
    }
  }

  lemma {:induction false} AdmissibleWeaken(ps: seq<Piece>)
    requires Admissible(ps, true)
    ensures Admissible(ps, false)
  {
  }

  /** After a folded line break the indentation is skipped and the break becomes one space. */
  lemma {:induction false} IndentSkipped(n: nat, rest: Bytes, column: nat, s: Bytes)
    requires !IsBlankz(rest, 0)
    ensures Gap(Spaces(n) + rest, column, s, true, [], [LF], []) == Outer(rest, column + n, s + [SPACE])
    decreases n
  {
    if n == 0 {
      assert Spaces(n) + rest == rest;
    } else {
      assert (Spaces(n) + rest)[1..] == Spaces(n - 1) + rest;
      IndentSkipped(n - 1, rest, column + 1, s);
    }
  }

  /** A folded break and its indentation read as a space, and reading goes on after them. */
  lemma FoldReads(cfg: Config, rest: Bytes, column: nat, s: Bytes)
    requires cfg.indent >= 1 && !IsBlankz(rest, 0)
    ensures NonBlank(BreakBytes(cfg.lineBreak) + Spaces(cfg.indent) + rest, column, s) == NonBlank(rest, cfg.indent, s + [SPACE])
  {
    var inp := BreakBytes(cfg.lineBreak) + Spaces(cfg.indent) + rest;
    var n := |BreakBytes(cfg.lineBreak)|;
    assert inp[n..] == Spaces(cfg.indent) + rest;
    assert Spaces(cfg.indent)[0] == SPACE && inp[n] == SPACE;
    assert BreakLength(inp) == n && BreakText(inp) == [LF];
    assert [] + [LF] == [LF];
    IndentSkipped(cfg.indent, rest, 0, s);
  }

  /** The non-blank loop reads back admissible pieces. */
  lemma {:induction false} TextReads(ps: seq<Piece>, cfg: Config, tail: Bytes, column: nat, s: Bytes)
    requires Admissible(ps, false) && cfg.indent >= 1 && column > 0
    ensures NonBlank(Closed(ps, cfg, tail), column, s) == Done(s + EncodeAll(Values(ps)), tail)
    decreases |ps|, 0
  {
    hide NonBlank, Gap, Encode, Closed, EscapeCode;
    if ps == [] {
      QuoteCloses(cfg, tail, column, s);
    } else {
      ClosedCons(ps, cfg, tail);
      var rest := Closed(ps[1..], cfg, tail);
      var text := Encode(PieceValue(ps[0])) + EncodeAll(Values(ps[1..]));
      assert EncodeAll(Values(ps)) == text;
      match ps[0]
      case Esc(v) =>
        EscapeReads(v, rest, column, s);
        TextReads(ps[1..], cfg, tail, column + 1 + |EscapeCode(v)|, s + Encode(v));
        assert s + text == s + Encode(v) + EncodeAll(Values(ps[1..]));
      case Raw(v) =>
        RawReads(v, rest, column, s);
        TextReads(ps[1..], cfg, tail, column + 1, s + Encode(v));
        assert s + text == s + Encode(v) + EncodeAll(Values(ps[1..]));
      case Blank =>
        BlankReads(rest, column, s);
        SpaceEncoded();
        GapReads(ps[1..], cfg, tail, column + 1, s, [SPACE]);
        assert s + text == s + [SPACE] + EncodeAll(Values(ps[1..]));
      case Fold(_) => FoldedTextReads(ps, cfg, tail, column, s);
    }
  }

  lemma SpaceEncoded()
    ensures Encode(0x20) == [SPACE]
  {
  }

  lemma QuoteCloses(cfg: Config, tail: Bytes, column: nat, s: Bytes)
    ensures NonBlank(Closed([], cfg, tail), column, s) == Done(s + EncodeAll(Values([])), tail)
  {
    assert Closed([], cfg, tail) == [QUOTE] + tail;
    assert s + [] == s;
  }

  lemma RawNotSpecial(v: CodePoint)
    requires Unmistakable(v)
    ensures Encode(v)[0] != QUOTE && Encode(v)[0] != BACKSLASH && Encode(v)[0] != 0
  {
  }

  lemma {:induction false} FoldedTextReads(ps: seq<Piece>, cfg: Config, tail: Bytes, column: nat, s: Bytes)
    requires ps != [] && ps[0].Fold? && Admissible(ps, false) && cfg.indent >= 1 && column > 0
    ensures NonBlank(Closed(ps, cfg, tail), column, s) == Done(s + EncodeAll(Values(ps)), tail)
    decreases |ps|, 0, 0
  {
    hide NonBlank, Gap, Closed;
    ClosedCons(ps, cfg, tail);
    var inp, next, rest := Closed(ps, cfg, tail), ps[1..], Closed(ps[1..], cfg, tail);
    assert EncodeAll(Values(ps)) == [SPACE] + EncodeAll(Values(next));
    if ps[0].escapeNext {
      var after := Closed(ps[2..], cfg, tail);
      assert next[1..] == ps[2..];
      ClosedCons(next, cfg, tail);
      assert rest == [SPACE] + after;
      assert EncodeAll(Values(next)) == [SPACE] + EncodeAll(Values(ps[2..]));
      var x := [BACKSLASH] + rest;
      assert inp == BreakBytes(cfg.lineBreak) + Spaces(cfg.indent) + x;
      FoldReads(cfg, x, column, s);
      assert x == [BACKSLASH, SPACE] + after;
      EscapedSpaceReads(after, cfg.indent, s + [SPACE]);
      AdmissibleWeaken(ps[2..]);
      TextReads(ps[2..], cfg, tail, cfg.indent + 2, s + [SPACE] + [SPACE]);
      assert s + ([SPACE] + ([SPACE] + EncodeAll(Values(ps[2..])))) == s + [SPACE] + [SPACE] + EncodeAll(Values(ps[2..]));
    } else {
      AdmissibleWeaken(next);
      FirstByte(next, cfg, tail);
      assert inp == BreakBytes(cfg.lineBreak) + Spaces(cfg.indent) + rest;
      FoldReads(cfg, rest, column, s);
      TextReads(next, cfg, tail, cfg.indent, s + [SPACE]);
      assert s + ([SPACE] + EncodeAll(Values(next))) == s + [SPACE] + EncodeAll(Values(next));
    }
  }

  /** The blank loop reads back admissible pieces after some spaces. */
  lemma {:induction false} GapReads(ps: seq<Piece>, cfg: Config, tail: Bytes, column: nat, s: Bytes, ws: Bytes)
    requires Admissible(ps, true) && cfg.indent >= 1 && column > 0
    ensures Gap(Closed(ps, cfg, tail), column, s, false, ws, [], []) == Done(s + ws + EncodeAll(Values(ps)), tail)
    decreases |ps|, 1
  {
    var inp := Closed(ps, cfg, tail);
    if ps != [] && ps[0].Blank? {
      ClosedCons(ps, cfg, tail);
      var rest := Closed(ps[1..], cfg, tail);
      assert inp[1..] == rest && inp[0] == SPACE;
      GapReads(ps[1..], cfg, tail, column + 1, s, ws + [SPACE]);
      assert EncodeAll(Values(ps)) == [SPACE] + EncodeAll(Values(ps[1..]));
      assert s + ws + ([SPACE] + EncodeAll(Values(ps[1..]))) == s + (ws + [SPACE]) + EncodeAll(Values(ps[1..]));
    } else {
      AdmissibleWeaken(ps);
      FirstByte(ps, cfg, tail);
      TextReads(ps, cfg, tail, column, s + ws);
    }
  }

  /**
   For every text, start column, width, indentation of at least 1, escaping mode and line break style, the
   scanner reads back exactly what the writer wrote between the quotes.
   */
  lemma ReadsBack(vs: seq<CodePoint>, writeColumn: int, cfg: Config, tail: Bytes, readColumn: nat)
    requires cfg.indent >= 1 && readColumn > 0
    ensures Outer(Written(vs, writeColumn, cfg) + ([QUOTE] + tail), readColumn, []) == Done(EncodeAll(vs), tail)
  {
    var ps := Pieces(vs, 0, writeColumn, false, cfg);
    PiecesAdmissible(vs, 0, writeColumn, false, cfg);
    assert vs[0..] == vs;
    var inp := Closed(ps, cfg, tail);
    NotAtEnd(ps, cfg, tail);
    TextReads(ps, cfg, tail, readColumn, []);
    assert [] + EncodeAll(vs) == EncodeAll(vs);
  }

  lemma NotAtEnd(ps: seq<Piece>, cfg: Config, tail: Bytes)
    requires Admissible(ps, false)
    ensures !IsZ(Closed(ps, cfg, tail), 0)
  {
    if ps != [] {
      ClosedCons(ps, cfg, tail);
      if !IsBlankPiece(ps[0]) { FirstByte(ps, cfg, tail); }
    }
  }
}
