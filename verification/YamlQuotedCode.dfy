/** The loops that write and scan double-quoted scalars, proved against `YamlQuoted`. */
module YamlQuotedCode {
  import opened Wrappers
  import opened Utf8
  import opened YamlChars
  import opened YamlQuoted

  //
  // Bytes and characters side by side.
  //

  lemma FromChar(value: Bytes, i: nat, vs: seq<CodePoint>)
    requires i <= |value| && value[i..] == EncodeAll(vs) && vs != []
    ensures i + |Encode(vs[0])| <= |value| && Encode(vs[0]) <= value[i..]
    ensures value[i..i + |Encode(vs[0])|] == Encode(vs[0])
    ensures value[i + |Encode(vs[0])|..] == EncodeAll(vs[1..])
  {
    hide Encode;
    var e, rest := Encode(vs[0]), EncodeAll(vs[1..]);
    AllCons(vs);
    hide EncodeAll;
    SplitAt(value, i, e, rest);
  }

  lemma AllCons(vs: seq<CodePoint>)
    requires vs != []
    ensures EncodeAll(vs) == Encode(vs[0]) + EncodeAll(vs[1..])
  {
  }

  lemma SplitAt(value: Bytes, i: nat, e: Bytes, rest: Bytes)
    requires i <= |value| && value[i..] == e + rest
    ensures i + |e| <= |value| && e <= value[i..] && value[i..i + |e|] == e && value[i + |e|..] == rest
  {
    assert value[i..][..|e|] == e && value[i..][|e|..] == rest;
  }

  lemma SameTests(b: Bytes, i: nat)
    requires i <= |b|
    ensures IsBreak(b, i) == IsBreak(b[i..], 0) && IsPrintable(b, i) == IsPrintable(b[i..], 0)
    ensures IsAscii(b, i) == IsAscii(b[i..], 0) && At(b, i) == At(b[i..], 0)
  {
    assert At(b, i + 1) == At(b[i..], 1) && At(b, i + 2) == At(b[i..], 2);
  }

  /** `v` shifted right by `k` hexadecimal digits. */
  function Shift(v: nat, k: nat): nat { if k == 0 then v else Shift(v, k - 1) / 16 }

  class Writer {
    const cfg: Config
    var out: Bytes
    var column: int
    var whitespace: bool
    var indention: bool

    constructor (cfg: Config, column: int, whitespace: bool, indention: bool)
      ensures this.cfg == cfg && out == [] && this.column == column && this.whitespace == whitespace && this.indention == indention
    {
      this.cfg, this.out, this.column, this.whitespace, this.indention := cfg, [], column, whitespace, indention;
    }

    method Put(b: Byte)
      modifies this`out, this`column
      ensures out == old(out) + [b] && column == old(column) + 1
    {
      out := out + [b];
      column := column + 1;
    }

    method PutBreak()
      modifies this`out, this`column
      ensures out == old(out) + BreakBytes(cfg.lineBreak) && column == 0
    {
      out := out + BreakBytes(cfg.lineBreak);
      column := 0;
    }

    /** Copy one character. */
    method Write(s: Bytes, i: nat) returns (i': nat)
      requires i < |s| && i + Width(s[i]) <= |s|
      modifies this`out, this`column
      ensures i' == i + Width(s[i]) && out == old(out) + s[i..i'] && column == old(column) + 1
    {
      i' := i + Width(s[i]);
      out := out + s[i..i'];
      column := column + 1;
    }

    /** An indicator of ASCII characters, after a space where one is needed. */
    method WriteIndicator(indicator: Bytes, needWhitespace: bool, isWhitespace: bool, isIndention: bool)
      requires forall i | 0 <= i < |indicator| :: indicator[i] < 0x80
      modifies this`out, this`column, this`whitespace, this`indention
      ensures out == old(out) + (if needWhitespace && !old(whitespace) then [SPACE] else []) + indicator
      ensures column == old(column) + (if needWhitespace && !old(whitespace) then 1 else 0) + |indicator|
      ensures whitespace == isWhitespace && indention == (old(indention) && isIndention)
    {
      if needWhitespace && !whitespace { Put(SPACE); }
      ghost var before := out;
      var i := 0;
      while i < |indicator|
        invariant 0 <= i <= |indicator| && out == before + indicator[..i]
        invariant column == old(column) + (if needWhitespace && !old(whitespace) then 1 else 0) + i
        invariant whitespace == old(whitespace) && indention == old(indention)
      {
        Put(indicator[i]);
        assert indicator[..i + 1] == indicator[..i] + [indicator[i]];
        i := i + 1;
      }
      assert indicator[..i] == indicator;
      whitespace := isWhitespace;
      indention := indention && isIndention;
    }

    /** Start a new line unless already at the indentation, and indent. */
    method WriteIndent()
      modifies this`out, this`column, this`whitespace, this`indention
      ensures whitespace && indention && (column == cfg.indent || column == old(column) > cfg.indent)
      ensures !old(indention) || old(column) > cfg.indent || (old(column) == cfg.indent && !old(whitespace)) ==>
                out == old(out) + BreakBytes(cfg.lineBreak) + Spaces(cfg.indent) && column == cfg.indent
    {
      if !indention || column > cfg.indent || (column == cfg.indent && !whitespace) {
        PutBreak();
      }
      ghost var base, from := out, column;
      while column < cfg.indent
        invariant from <= column && (column <= cfg.indent || column == from)
        invariant out == base + Spaces(column - from)
      {
        SpacesSnoc(column - from);
        assert base + Spaces(column - from) + [SPACE] == base + (Spaces(column - from) + [SPACE]);
        Put(SPACE);
      }
      whitespace, indention := true, true;
    }

    method PutHex(v: nat, n: nat)
      modifies this`out, this`column
      ensures out == old(out) + Hex(v, n) && column == old(column) + n
    {
      var k := n;
      while k > 0
        invariant 0 <= k <= n
        invariant out == old(out) + Hex(Shift(v, k), n - k) && column == old(column) + n - k
      {
        k := k - 1;
        var digit := Shift(v, k) % 16;
        assert Hex(Shift(v, k), n - k) == Hex(Shift(v, k + 1), n - k - 1) + [HexDigit(digit)];
        Put(HexDigit(digit));
      }
    }

    /** The backslash and the code of one character. */
    method PutEscape(v: CodePoint)
      modifies this`out, this`column
      ensures out == old(out) + ([BACKSLASH] + EscapeCode(v)) && column == old(column) + 1 + |EscapeCode(v)|
    {
      hide Hex;
      assert IsScalarValue(v);
      Put(BACKSLASH);
      var short := ShortEscape(v);
      if short.Some? {
        Put(short.value);
      } else if v <= 0xFF {
        Put(120);
        PutHex(v, 2);
      } else if v <= 0xFFFF {
        Put(117);
        PutHex(v, 4);
      } else {
        Put(85);
        PutHex(v, 8);
      }
    }

    /** A double-quoted scalar: a quote, the text as `YamlQuoted` describes it, a quote. */
    method WriteDoubleQuotedScalar(value: Bytes, ghost vs: seq<CodePoint>)
      requires value == EncodeAll(vs)
      modifies this
      ensures out == old(out) + Opening(old(whitespace))
                     + Written(vs, old(column) + |Opening(old(whitespace))|, cfg) + [QUOTE]
      ensures !whitespace && !indention
    {
      hide Pieces, Render, EncodeAll, Written;
      var spaces := false;
      WriteIndicator([QUOTE], true, false, false);
      ghost var k, target := 0, out + Written(vs, column, cfg);
      WrittenIs(vs, column, cfg);
      var i := 0;
      assert vs[0..] == vs && value[0..] == value;
      while i < |value|
        invariant 0 <= i <= |value| && 0 <= k <= |vs| && value[i..] == EncodeAll(vs[k..])
        invariant (i == 0 <==> k == 0)
        invariant out + Render(Pieces(vs, k, column, spaces, cfg), cfg) == target
        invariant indention ==> column >= cfg.indent && (!spaces ==> column > cfg.indent)
        decreases |value| - i
      {
        SomeLeft(value, i, vs, k);
        i, spaces := WriteCharacter(value, i, spaces, vs, k, target);
        k := k + 1;
      }
      SomeLeft(value, i, vs, k);
      NothingLeft(vs, column, spaces, cfg);
      assert out == target by { assert out + [] == out; }
      WriteIndicator([QUOTE], false, false, false);
    }

    /** The body of the loop: the character at byte `i`, which is character `k`. */
    method WriteCharacter(value: Bytes, i: nat, spaces: bool, ghost vs: seq<CodePoint>, ghost k: nat, ghost target: Bytes)
      returns (i': nat, spaces': bool)
      requires i < |value| && k < |vs| && value == EncodeAll(vs) && value[i..] == EncodeAll(vs[k..]) && (i == 0 <==> k == 0)
      requires out + Render(Pieces(vs, k, column, spaces, cfg), cfg) == target
      requires indention ==> column >= cfg.indent && (!spaces ==> column > cfg.indent)
      modifies this
      ensures i < i' <= |value| && value[i'..] == EncodeAll(vs[k + 1..])
      ensures out + Render(Pieces(vs, k + 1, column, spaces', cfg), cfg) == target
      ensures indention ==> column >= cfg.indent && (!spaces' ==> column > cfg.indent)
    {
      hide EncodeAll, IsPrintable, IsBreak, Pieces, Render, EscapeCode;
      ghost var v := vs[k];
      CharAt(value, i, vs, k);
      ghost var p, before := PieceFor(vs, k, column, spaces, cfg), column;
      PieceStep(vs, k, column, spaces, cfg, out, target);
      if !IsPrintable(value, i) || (!cfg.unicode && !IsAscii(value, i)) || IsBom(value) || IsBreak(value, i)
         || value[i] == QUOTE || value[i] == BACKSLASH
      {
        var w := Width(value[i]);
        var u := DecodeAt(value, i, w, v);
        i' := i + w;
        PutEscape(u);
        spaces' := false;
      } else if value[i] == SPACE {
        if cfg.allowBreaks && !spaces && column > cfg.bestWidth && i > 0 && i < |value| - 1 {
          NextChar(value, i, vs, k);
          WriteIndent();
          if value[i + 1] == SPACE {
            Put(BACKSLASH);
          }
          i' := i + 1;
          assert out == old(out) + RenderPiece(p, cfg);
        } else {
          LastChar(value, i, vs, k);
          i' := Write(value, i);
        }
        spaces' := true;
      } else {
        i' := Write(value, i);
        spaces' := false;
      }
      assert out == old(out) + RenderPiece(p, cfg) && column == ColumnAfter(p, before, cfg);
    }
  }

  lemma NoHex()
    ensures AllHex([]) && FromHex([]) == 0
  {
  }

  lemma WrittenIs(vs: seq<CodePoint>, column: int, cfg: Config)
    ensures Written(vs, column, cfg) == Render(Pieces(vs, 0, column, false, cfg), cfg)
  {
  }

  function Opening(whitespace: bool): Bytes { if whitespace then [QUOTE] else [SPACE, QUOTE] }

  lemma {:induction false} SpacesSnoc(n: nat)
    ensures Spaces(n + 1) == Spaces(n) + [SPACE]
  {
    if n > 0 { SpacesSnoc(n - 1); }
  }

  lemma SomeLeft(value: Bytes, i: nat, vs: seq<CodePoint>, k: nat)
    requires i <= |value| && k <= |vs| && value[i..] == EncodeAll(vs[k..])
    ensures i < |value| <==> k < |vs|
  {
    if k < |vs| { FromChar(value, i, vs[k..]); }
  }

  lemma NothingLeft(vs: seq<CodePoint>, column: int, spaces: bool, cfg: Config)
    ensures Render(Pieces(vs, |vs|, column, spaces, cfg), cfg) == []
  {
  }

  /** The tests of the loop, on the bytes, against the character. */
  lemma CharAt(value: Bytes, i: nat, vs: seq<CodePoint>, k: nat)
    requires i < |value| && k < |vs| && value == EncodeAll(vs) && value[i..] == EncodeAll(vs[k..])
    ensures var e := Encode(vs[k]);
            && i + |e| <= |value| && value[i..i + |e|] == e && value[i] == e[0] && Width(value[i]) == |e|
            && value[i + |e|..] == EncodeAll(vs[k + 1..])
    ensures IsBreak(value, i) <==> BreakChar(vs[k])
    ensures IsPrintable(value, i) <==> PrintableChar(vs[k])
    ensures IsAscii(value, i) <==> vs[k] <= 0x7F
    ensures IsBom(value) <==> vs[0] == 0xFEFF
    ensures value[i] == SPACE <==> vs[k] == 0x20
    ensures value[i] == QUOTE <==> vs[k] == 0x22
    ensures value[i] == BACKSLASH <==> vs[k] == 0x5C
  {
    FromChar(value, i, vs[k..]);
    assert vs[k..][0] == vs[k] && vs[k..][1..] == vs[k + 1..];
    SameTests(value, i);
    CharTests(vs[k], value[i..]);
    BomTest(vs);
    assert value[i] == value[i..][0];
  }

  lemma NextChar(value: Bytes, i: nat, vs: seq<CodePoint>, k: nat)
    requires i < |value| - 1 && k < |vs| && value == EncodeAll(vs) && value[i..] == EncodeAll(vs[k..]) && vs[k] == 0x20
    ensures k + 1 < |vs| && (value[i + 1] == SPACE <==> vs[k + 1] == 0x20)
  {
    CharAt(value, i, vs, k);
    assert value[i + 1..] == EncodeAll(vs[k + 1..]);
    CharAt(value, i + 1, vs, k + 1);
  }

  lemma LastChar(value: Bytes, i: nat, vs: seq<CodePoint>, k: nat)
    requires i < |value| && k < |vs| && value == EncodeAll(vs) && value[i..] == EncodeAll(vs[k..]) && vs[k] == 0x20
    ensures i < |value| - 1 <==> k < |vs| - 1
  {
    CharAt(value, i, vs, k);
    assert value[i + 1..] == EncodeAll(vs[k + 1..]);
    if k + 1 < |vs| { assert |Encode(vs[k + 1..][0])| >= 1; }
  }

  /** Writing the piece for character `k` leaves the rest of the target to write. */
  lemma PieceStep(vs: seq<CodePoint>, k: nat, column: int, spaces: bool, cfg: Config, out: Bytes, target: Bytes)
    requires k < |vs| && out + Render(Pieces(vs, k, column, spaces, cfg), cfg) == target
    ensures var p := PieceFor(vs, k, column, spaces, cfg);
            out + RenderPiece(p, cfg) + Render(Pieces(vs, k + 1, ColumnAfter(p, column, cfg), p.Blank? || p.Fold?, cfg), cfg) == target
  {
    var p := PieceFor(vs, k, column, spaces, cfg);
    var rest := Pieces(vs, k + 1, ColumnAfter(p, column, cfg), p.Blank? || p.Fold?, cfg);
    assert Pieces(vs, k, column, spaces, cfg) == [p] + rest;
    assert ([p] + rest)[1..] == rest;
  }

  /** Reassemble the character whose bytes start at `i`. */
  method DecodeAt(value: Bytes, i: nat, w: nat, ghost v: CodePoint) returns (u: CodePoint)
    requires i + w <= |value| && value[i..i + w] == Encode(v)
    ensures u == v
  {
    ValueOfEncoded(v);
    ghost var e := Encode(v);
    var n := LeadBits(value[i]);
    assert value[i] == e[0] && e[..1] == [e[0]];
    for k := 1 to w
      invariant n == Value(e[..k])
    {
      assert value[i + k] == e[k] && e[..k + 1][..k] == e[..k];
      n := 64 * n + TrailBits(value[i + k]);
    }
    assert e[..w] == e;
    u := n;
  }

  //
  // The scanner.
  //

  class QuotedScanner {
    var unread: Bytes
    var column: nat

    constructor (unread: Bytes, column: nat)
      ensures this.unread == unread && this.column == column
    {
      this.unread, this.column := unread, column;
    }

    /** Scan a double-quoted scalar whose opening quote is next. */
    method ScanDoubleQuotedScalar() returns (r: Option<Bytes>)
      requires unread != [] && unread[0] == QUOTE
      modifies this
      ensures match Outer(old(unread)[1..], old(column) + 1, [])
              case Done(value, rest) => r == Some(value) && unread == rest
              case Bad => r == None
    {
      unread, column := unread[1..], column + 1;
      ghost var spec := Outer(unread, column, []);
      var s: Bytes := [];
      while true
        invariant spec == Outer(unread, column, s)
        decreases |unread|
      {
        if column == 0 && DocumentIndicator(unread) { return None; }
        if IsZ(unread, 0) { return None; }
        var ended, leading;
        ended, leading, s := ScanText(s, spec);
        if ended.Some? {
          return if ended.value then Some(s) else None;
        }
        s := ScanBlanks(s, leading, spec);
      }
    }

    /**
     The loop over non-blank characters: `ended` tells whether the closing quote was reached or the text is bad;
     otherwise blanks follow, `leading` if an escaped line break has just been read.
     */
    method ScanText(s: Bytes, ghost spec: ScanResult) returns (ended: Option<bool>, leading: bool, s': Bytes)
      requires spec == NonBlank(unread, column, s) && !IsZ(unread, 0)
      modifies this
      ensures ended == Some(true) ==> spec == Done(s', unread)
      ensures ended == Some(false) ==> spec == Bad
      ensures ended.None? ==> spec == Gap(unread, column, s', leading, [], [], [])
      ensures ended.None? ==> |unread| <= |old(unread)|
      ensures ended.None? && |unread| == |old(unread)| ==> IsBlank(unread, 0) || IsBreak(unread, 0)
    {
      hide Escape, Gap, Blanks, IsBreak;
      s', leading, ended := s, false, None;
      while !IsBlankz(unread, 0)
        invariant spec == NonBlank(unread, column, s') && |unread| <= |old(unread)|
        invariant |unread| == |old(unread)| ==> !IsZ(unread, 0)
        decreases |unread|
      {
        if unread[0] == QUOTE {
          unread, column := unread[1..], column + 1;
          return Some(true), false, s';
        } else if unread[0] == BACKSLASH && IsBreak(unread, 1) {
          EscapedBreak(unread, column, s');
          unread, column := unread[1..], column + 1;
          unread, column := unread[BreakLength(unread)..], 0;
          if At(unread, 0) == QUOTE {
            unread, column := unread[1..], column + 1;
            return Some(true), true, s';
          }
          return None, true, s';
        } else if unread[0] == BACKSLASH {
          var ok;
          ok, s' := ScanEscape(s', spec);
          if !ok { return Some(false), false, s'; }
        } else {
          var w := Width(unread[0]);
          if w == 0 || w > |unread| { return Some(false), false, s'; }
          s' := s' + unread[..w];
          unread, column := unread[w..], column + 1;
        }
      }
      TextEnds(unread, column, s');
    }

    method ScanEscape(s: Bytes, ghost spec: ScanResult) returns (ok: bool, s': Bytes)
      requires unread != [] && spec == Escape(unread, column, s)
      modifies this
      ensures !ok ==> spec == Bad
      ensures ok ==> spec == NonBlank(unread, column, s') && |unread| < |old(unread)|
    {
      hide NonBlank, Encode, FromHex, AllHex, IsHex, HexValue, ShortValue;
      s' := s;
      if |unread| < 2 { return false, s; }
      var c := unread[1];
      var short, n := ShortValue(c), CodeLength(c);
      if short.Some? {
        s' := s + short.value;
        unread, column := unread[2..], column + 2;
        return true, s';
      }
      if n == 0 || |unread| < 2 + n { return false, s; }
      var v, k := 0, 0;
      var code := unread[2..2 + n];
      NoHex();
      while k < n
        invariant 0 <= k <= n && AllHex(code[..k]) && v == FromHex(code[..k])
        invariant unread == old(unread) && column == old(column)
      {
        if !IsHex(code[k]) {
          NotHex(code, k);
          return false, s;
        }
        HexSnoc(code, k);
        v := 16 * v + HexValue(code[k]);
        k := k + 1;
      }
      assert code[..n] == code;
      if !IsScalarValue(v) { return false, s; }
      s' := s + Encode(v);
      unread, column := unread[2 + n..], column + 2 + n;
      return true, s';
    }

    /** The loop over blanks and breaks, and their folding. */
    method ScanBlanks(s: Bytes, leadingBlanks: bool, ghost spec: ScanResult) returns (s': Bytes)
      requires spec == Gap(unread, column, s, leadingBlanks, [], [], [])
      modifies this
      ensures spec == Outer(unread, column, s')
      ensures |unread| <= |old(unread)|
      ensures IsBlank(old(unread), 0) || IsBreak(old(unread), 0) ==> |unread| < |old(unread)|
    {
      hide Outer, IsBreak;
      var leading, ws, leadingBreak, trailingBreaks := leadingBlanks, [], [], [];
      while IsBlank(unread, 0) || IsBreak(unread, 0)
        invariant spec == Gap(unread, column, s, leading, ws, leadingBreak, trailingBreaks)
        invariant |unread| <= |old(unread)| && (|unread| == |old(unread)| ==> unread == old(unread))
        decreases |unread|
      {
        if IsBlank(unread, 0) {
          if !leading { ws := ws + [unread[0]]; }
          unread, column := unread[1..], column + 1;
        } else {
          var text := BreakText(unread);
          if !leading {
            ws, leadingBreak, leading := [], leadingBreak + text, true;
          } else {
            trailingBreaks := trailingBreaks + text;
          }
          unread, column := unread[BreakLength(unread)..], 0;
        }
      }
      if leading {
        if |leadingBreak| > 0 && leadingBreak[0] == LF {
          if |trailingBreaks| == 0 {
            s' := s + [SPACE];
          } else {
            s' := s + trailingBreaks;
          }
        } else {
          s' := s + leadingBreak + trailingBreaks;
        }
      } else {
        s' := s + ws;
      }
    }
  }

  /** What the writer writes at any column the scanner reads back. */
  method WriteAndScan(value: Bytes, ghost vs: seq<CodePoint>, cfg: Config, column: int, whitespace: bool, indention: bool,
                      readColumn: nat)
    returns (r: Option<Bytes>)
    requires value == EncodeAll(vs) && cfg.indent >= 1
    ensures r == Some(value)
  {
    hide Written, Outer, EncodeAll;
    var w := new Writer(cfg, column, whitespace, indention);
    w.WriteDoubleQuotedScalar(value, vs);
    var skip := if whitespace then 0 else 1;
    var q := new QuotedScanner(w.out[skip..], readColumn);
    ghost var at := column + |Opening(whitespace)|;
    ghost var text := Written(vs, at, cfg);
    assert w.out == Opening(whitespace) + text + [QUOTE];
    assert q.unread[1..] == text + ([QUOTE] + []);
    ReadsBack(vs, at, cfg, [], readColumn + 1);
    r := q.ScanDoubleQuotedScalar();
  }

  lemma EscapedBreak(inp: Bytes, column: nat, s: Bytes)
    requires inp != [] && inp[0] == BACKSLASH && IsBreak(inp, 1)
    ensures IsBreak(inp[1..], 0)
    ensures var rest := inp[1..][BreakLength(inp[1..])..];
            NonBlank(inp, column, s) == if At(rest, 0) == QUOTE then Done(s, rest[1..]) else Gap(rest, 0, s, true, [], [], [])
  {
    hide Gap, Escape, Blanks;
    assert At(inp, 2) == At(inp[1..], 1) && At(inp, 3) == At(inp[1..], 2);
  }

  lemma TextEnds(inp: Bytes, column: nat, s: Bytes)
    requires IsBlankz(inp, 0)
    ensures NonBlank(inp, column, s) == Gap(inp, column, s, false, [], [], [])
  {
    hide Blanks, Escape;
    assert s + [] == s;
  }
}
