/** A double-quoted scalar written, taken through the reader, and scanned. */
module YamlQuotedRead {
  import opened Wrappers
  import opened Utf8
  import opened YamlChars
  import opened YamlQuoted
  import opened YamlReader
  import YamlQuotedCode

  //
  // What the writer writes is text.
  //

  /** Octets of the printable part of ASCII, and breaks. */
  predicate Plain(b: Bytes) { forall i | 0 <= i < |b| :: b[i] == LF || b[i] == CR || 0x20 <= b[i] <= 0x7E }

  lemma TextConcat(a: Bytes, b: Bytes)
    requires IsText(a) && IsText(b)
    ensures IsText(a + b)
  {
    hide EncodeAll;
    var x :| AllAllowed(x) && EncodeAll(x) == a;
    var y :| AllAllowed(y) && EncodeAll(y) == b;
    EncodeAllConcat(x, y);
    assert AllAllowed(x + y);
  }

  lemma CharIsText(v: CodePoint)
    requires Allowed(v)
    ensures IsText(Encode(v))
  {
    hide Encode;
    assert EncodeAll([v]) == Encode(v) + EncodeAll([]);
    assert AllAllowed([v]);
  }

  lemma {:induction false} PlainIsText(b: Bytes)
    requires Plain(b)
    ensures IsText(b)
  {
    if b == [] {
      assert AllAllowed([]) && EncodeAll([]) == b;
    } else {
      CharIsText(b[0]);
      AsciiEncoded(b[0]);
      PlainIsText(b[1..]);
      TextConcat([b[0]], b[1..]);
      assert [b[0]] + b[1..] == b;
    }
  }

  lemma {:induction false} HexIsPlain(v: nat, n: nat)
    ensures Plain(Hex(v, n))
  {
    if n > 0 { HexIsPlain(v / 16, n - 1); }
  }

  lemma {:induction false} SpacesArePlain(n: nat)
    ensures Plain(Spaces(n))
  {
    if n > 0 { SpacesArePlain(n - 1); }
  }

  lemma EscapeIsPlain(v: CodePoint)
    ensures Plain([BACKSLASH] + EscapeCode(v))
  {
    hide Hex;
    assert IsScalarValue(v);
    HexIsPlain(v, 2);
    HexIsPlain(v, 4);
    HexIsPlain(v, 8);
    if ShortEscape(v).Some? {
      ShortIsLetter(v);
    }
  }

  lemma FoldIsPlain(e: bool, cfg: Config)
    ensures Plain(RenderPiece(Fold(e), cfg))
  {
    hide Spaces;
    SpacesArePlain(cfg.indent);
  }

  /** What is written raw is printable, so the reader lets it through. */
  lemma PieceIsText(p: Piece, cfg: Config)
    requires p.Raw? ==> Unmistakable(p.v)
    ensures IsText(RenderPiece(p, cfg))
  {
    hide EscapeCode, IsText, Encode;
    match p
    case Esc(v) =>
      EscapeIsPlain(v);
      PlainIsText([BACKSLASH] + EscapeCode(v));
    case Raw(v) => CharIsText(v);
    case Blank => PlainIsText([SPACE]);
    case Fold(e) =>
      FoldIsPlain(e, cfg);
      PlainIsText(RenderPiece(p, cfg));
  }

  lemma {:induction false} RenderIsText(ps: seq<Piece>, cfg: Config)
    requires forall i :: 0 <= i < |ps| && ps[i].Raw? ==> Unmistakable(ps[i].v)
    ensures IsText(Render(ps, cfg))
    decreases |ps|
  {
    hide IsText, RenderPiece;
    if ps == [] {
      PlainIsText([]);
    } else {
      PieceIsText(ps[0], cfg);
      RenderIsText(ps[1..], cfg);
      TextConcat(RenderPiece(ps[0], cfg), Render(ps[1..], cfg));
    }
  }

  lemma {:induction false} RawIsPrintable(ps: seq<Piece>, afterBlank: bool, i: nat)
    requires Admissible(ps, afterBlank) && i < |ps| && ps[i].Raw?
    ensures Unmistakable(ps[i].v)
    decreases i
  {
    if i > 0 {
      var next := if ps[0].Fold? && ps[0].escapeNext then 2 else 1;
      RawIsPrintable(ps[next..], IsBlankPiece(ps[0]), i - next);
    }
  }

  /** The writer's output, with its quotes, is text for any text of any characters. */
  lemma OutputIsText(vs: seq<CodePoint>, column: int, cfg: Config, whitespace: bool)
    ensures IsText(YamlQuotedCode.Opening(whitespace) + Written(vs, column, cfg) + [QUOTE])
  {
    hide IsText, Render, Pieces;
    var ps := Pieces(vs, 0, column, false, cfg);
    PiecesAdmissible(vs, 0, column, false, cfg);
    forall i | 0 <= i < |ps| && ps[i].Raw? ensures Unmistakable(ps[i].v) {
      RawIsPrintable(ps, false, i);
    }
    RenderIsText(ps, cfg);
    var opening := YamlQuotedCode.Opening(whitespace);
    PlainIsText(opening);
    PlainIsText([QUOTE]);
    TextConcat(opening, Written(vs, column, cfg));
    TextConcat(opening + Written(vs, column, cfg), [QUOTE]);
  }

  //
  // The whole way.
  //

  /** Text without a byte order mark comes through the reader as it is. */
  method TakeIn(input: Bytes) returns (seen: Bytes)
    requires IsText(input) && input != [] && input[0] < 0x80
    ensures seen == input
  {
    hide IsText, Reader.Valid;
    var reader := new Reader(input);
    var ok, text := reader.ReadAll();
    seen := text;
  }

  /**
   The reader accepts what the writer wrote for any text, and the scanner, given what was read, gives the
   text back.
   */
  method WriteReadAndScan(value: Bytes, ghost vs: seq<CodePoint>, cfg: Config, column: int, whitespace: bool, indention: bool,
                          readColumn: nat)
    returns (r: Option<Bytes>)
    requires value == EncodeAll(vs) && cfg.indent >= 1
    ensures r == Some(value)
  {
    hide Written, Outer, EncodeAll, IsText;
    var w := new YamlQuotedCode.Writer(cfg, column, whitespace, indention);
    w.WriteDoubleQuotedScalar(value, vs);
    ghost var at := column + |YamlQuotedCode.Opening(whitespace)|;
    ghost var text := Written(vs, at, cfg);
    assert w.out == YamlQuotedCode.Opening(whitespace) + text + [QUOTE];
    OutputIsText(vs, at, cfg, whitespace);
    var seen := TakeIn(w.out);
    var skip := if whitespace then 0 else 1;
    var q := new YamlQuotedCode.QuotedScanner(seen[skip..], readColumn);
    assert q.unread[1..] == text + ([QUOTE] + []);
    ReadsBack(vs, at, cfg, [], readColumn + 1);
    r := q.ScanDoubleQuotedScalar();
  }
}
