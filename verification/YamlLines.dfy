/**
 Double-quoted scalars over several lines, from the text: words, and between them blanks, line breaks or
 escaped line breaks.  Blanks on a line are kept; of the breaks between two words the first is folded, and
 becomes a space when it is the only one; an escaped break is dropped.
 */
module YamlLines {
  import opened Wrappers
  import opened Utf8
  import opened YamlChars
  import opened YamlQuoted
  import YamlQuotedCode

  datatype Break = Lf | CrLf | Cr | Nel | Ls | Ps

  function BytesOf(b: Break): Bytes {
    match b
    case Lf => [LF]
    case CrLf => [CR, LF]
    case Cr => [CR]
    case Nel => [0xC2, 0x85]
    case Ls => [0xE2, 0x80, 0xA8]
    case Ps => [0xE2, 0x80, 0xA9]
  }

  /** U+2028 and U+2029 are kept, every other break stands for a line feed. */
  function Kept(b: Break): Bytes {
    if b.Ls? || b.Ps? then BytesOf(b) else [LF]
  }

  /** A break and the blanks the next line starts with. */
  datatype Line = Line(brk: Break, blanks: Bytes)

  datatype Spacing =
    | Blank(blanks: Bytes)
    | Broken(before: Bytes, first: Line, more: seq<Line>)
    | Escaped(first: Line, more: seq<Line>)

  function LinesBytes(ls: seq<Line>): Bytes {
    if ls == [] then [] else BytesOf(ls[0].brk) + (ls[0].blanks + LinesBytes(ls[1..]))
  }

  function SpacingBytes(g: Spacing): Bytes {
    match g
    case Blank(blanks) => blanks
    case Broken(before, first, more) => before + LinesBytes([first] + more)
    case Escaped(first, more) => [BACKSLASH] + LinesBytes([first] + more)
  }

  function KeptAll(ls: seq<Line>): Bytes {
    if ls == [] then [] else Kept(ls[0].brk) + KeptAll(ls[1..])
  }

  /** What the spacing stands for. */
  function Folded(g: Spacing): Bytes {
    match g
    case Blank(blanks) => blanks
    case Broken(_, first, more) =>
      if first.brk.Ls? || first.brk.Ps? then Kept(first.brk) + KeptAll(more)
      else if more == [] then [SPACE]
      else KeptAll(more)
    case Escaped(_, more) => KeptAll(more)
  }

  /** A word behind its spacing. */
  datatype Part = Part(spacing: Spacing, word: seq<CodePoint>)

  function PartsBytes(ps: seq<Part>): Bytes {
    if ps == [] then [] else SpacingBytes(ps[0].spacing) + (EncodeAll(ps[0].word) + PartsBytes(ps[1..]))
  }

  function PartsValue(ps: seq<Part>): Bytes {
    if ps == [] then [] else Folded(ps[0].spacing) + (EncodeAll(ps[0].word) + PartsValue(ps[1..]))
  }

  //
  // Which texts these are.
  //

  predicate AllBlank(bs: Bytes) { forall i | 0 <= i < |bs| :: bs[i] == SPACE || bs[i] == TAB }

  predicate IsWord(w: seq<CodePoint>) { forall i | 0 <= i < |w| :: Unmistakable(w[i]) }

  /** A carriage return with a line feed right behind it is one break. */
  predicate LinesOk(ls: seq<Line>) {
    && (forall i | 0 <= i < |ls| :: AllBlank(ls[i].blanks))
    && (forall i | 0 < i < |ls| :: ls[i].brk.Lf? ==> !(ls[i - 1].brk.Cr? && ls[i - 1].blanks == []))
  }

  predicate SpacingOk(g: Spacing) {
    match g
    case Blank(blanks) => blanks != [] && AllBlank(blanks)
    case Broken(before, first, more) => AllBlank(before) && LinesOk([first] + more)
    case Escaped(first, more) => LinesOk([first] + more)
  }

  /** The column at which the word behind the spacing starts. */
  function ColumnBehind(g: Spacing, column: nat): nat {
    match g
    case Blank(blanks) => column + |blanks|
    case Broken(_, first, more) => |([first] + more)[|more|].blanks|
    case Escaped(first, more) => |([first] + more)[|more|].blanks|
  }

  /** Words are separated by one spacing, and no line starts with a document indicator; `tail` follows the quote. */
  ghost predicate PartsOk(ps: seq<Part>, column: nat, tail: Bytes) {
    ps == [] ||
    (var g, w := ps[0].spacing, ps[0].word;
     var at := ColumnBehind(g, column);
     && SpacingOk(g) && IsWord(w)
     && (w != [] || |ps| == 1 || ps[1].spacing.Escaped?)
     && !(at == 0 && DocumentIndicator(EncodeAll(w) + Rest(ps[1..], tail)))
     && PartsOk(ps[1..], at + |w|, tail))
  }

  /** The text of the parts up to the closing quote, and what follows it. */
  function Rest(ps: seq<Part>, tail: Bytes): Bytes { PartsBytes(ps) + ([QUOTE] + tail) }

  //
  // Reading them.
  //

  lemma {:induction false} WordReads(w: seq<CodePoint>, rest: Bytes, column: nat, s: Bytes)
    requires IsWord(w)
    ensures NonBlank(EncodeAll(w) + rest, column, s) == NonBlank(rest, column + |w|, s + EncodeAll(w))
    decreases |w|
  {
    hide NonBlank, Encode, Unmistakable;
    if w == [] {
      assert [] + rest == rest && s + [] == s;
    } else {
      var e, more := Encode(w[0]), EncodeAll(w[1..]);
      assert EncodeAll(w) + rest == e + (more + rest);
      RawReads(w[0], more + rest, column, s);
      WordReads(w[1..], rest, column + 1, s + e);
      assert (s + e) + more == s + (e + more);
    }
  }

  lemma {:induction false} BlanksSkipped(bs: Bytes, rest: Bytes, column: nat, s: Bytes, lead: Bytes, trail: Bytes)
    requires AllBlank(bs)
    ensures Gap(bs + rest, column, s, true, [], lead, trail) == Gap(rest, column + |bs|, s, true, [], lead, trail)
    decreases |bs|
  {
    if bs == [] {
      assert [] + rest == rest;
    } else {
      var inp := bs + rest;
      assert inp[0] == bs[0] && inp[1..] == bs[1..] + rest;
      BlanksSkipped(bs[1..], rest, column + 1, s, lead, trail);
    }
  }

  lemma {:induction false} BlanksKept(bs: Bytes, rest: Bytes, column: nat, s: Bytes, ws: Bytes)
    requires AllBlank(bs)
    ensures Gap(bs + rest, column, s, false, ws, [], []) == Gap(rest, column + |bs|, s, false, ws + bs, [], [])
    decreases |bs|
  {
    if bs == [] {
      assert [] + rest == rest && ws + [] == ws;
    } else {
      var inp := bs + rest;
      assert inp[0] == bs[0] && inp[1..] == bs[1..] + rest;
      BlanksKept(bs[1..], rest, column + 1, s, ws + [bs[0]]);
      assert (ws + [bs[0]]) + bs[1..] == ws + bs;
    }
  }

  lemma BreakReads(b: Break, rest: Bytes)
    requires b.Cr? ==> At(rest, 0) != LF
    ensures var inp := BytesOf(b) + rest;
            && IsBreak(inp, 0) && !IsBlank(inp, 0) && BreakLength(inp) == |BytesOf(b)| && inp[BreakLength(inp)..] == rest
            && BreakText(inp) == Kept(b)
  {
    var inp, n := BytesOf(b) + rest, |BytesOf(b)|;
    assert At(inp, n) == At(rest, 0);
    assert inp[..n] == BytesOf(b);
  }

  /** Breaks after the first, with their blanks: all of them are kept for now. */
  lemma {:induction false} LinesRead(ls: seq<Line>, rest: Bytes, column: nat, s: Bytes, lead: Bytes, trail: Bytes)
    requires LinesOk(ls) && !IsBlankz(rest, 0)
    ensures Gap(LinesBytes(ls) + rest, column, s, true, [], lead, trail)
            == Outer(rest, if ls == [] then column else |ls[|ls| - 1].blanks|, Join(s, true, [], lead, trail + KeptAll(ls)))
    decreases |ls|
  {
    hide Outer, Join, Gap, LinesOk, IsBlankz, BytesOf, Kept, AllBlank;
    if ls == [] {
      assert [] + rest == rest && trail + [] == trail;
      GapEnds(rest, column, s, lead, trail);
    } else {
      var b, more := ls[0], LinesBytes(ls[1..]) + rest;
      LinesCons(ls, rest);
      NotLf(ls, rest);
      MoreOk(ls);
      AnotherBreak(b.brk, b.blanks + more, column, s, lead, trail);
      BlanksSkipped(b.blanks, more, 0, s, lead, trail + Kept(b.brk));
      LinesRead(ls[1..], rest, |b.blanks|, s, lead, trail + Kept(b.brk));
      assert (trail + Kept(b.brk)) + KeptAll(ls[1..]) == trail + KeptAll(ls);
    }
  }

  lemma LinesCons(ls: seq<Line>, rest: Bytes)
    requires ls != []
    ensures LinesBytes(ls) + rest == BytesOf(ls[0].brk) + (ls[0].blanks + (LinesBytes(ls[1..]) + rest))
  {
    hide BytesOf;
  }

  lemma GapEnds(rest: Bytes, column: nat, s: Bytes, lead: Bytes, trail: Bytes)
    requires !IsBlankz(rest, 0)
    ensures Gap(rest, column, s, true, [], lead, trail) == Outer(rest, column, Join(s, true, [], lead, trail))
  {
    hide Outer, Join;
  }

  lemma AnotherBreak(b: Break, rest: Bytes, column: nat, s: Bytes, lead: Bytes, trail: Bytes)
    requires b.Cr? ==> At(rest, 0) != LF
    ensures Gap(BytesOf(b) + rest, column, s, true, [], lead, trail) == Gap(rest, 0, s, true, [], lead, trail + Kept(b))
  {
    BreakReads(b, rest);
    hide IsBreak, IsBlank, BreakLength, BreakText;
  }

  /** What follows a line in the text is not a line feed that belongs to its break. */
  lemma NotLf(ls: seq<Line>, rest: Bytes)
    requires LinesOk(ls) && ls != [] && !IsBlankz(rest, 0)
    ensures ls[0].brk.Cr? ==> At(ls[0].blanks + (LinesBytes(ls[1..]) + rest), 0) != LF
  {
    if ls[0].blanks == [] {
      assert [] + (LinesBytes(ls[1..]) + rest) == LinesBytes(ls[1..]) + rest;
      if |ls| == 1 {
        assert LinesBytes(ls[1..]) + rest == rest;
      } else {
        assert ls[1..][0] == ls[1];
        var b := BytesOf(ls[1].brk);
        assert (LinesBytes(ls[1..]) + rest)[0] == b[0];
      }
    }
  }

  lemma FirstBreak(b: Break, rest: Bytes, column: nat, s: Bytes, ws: Bytes)
    requires b.Cr? ==> At(rest, 0) != LF
    ensures Gap(BytesOf(b) + rest, column, s, false, ws, [], []) == Gap(rest, 0, s, true, [], Kept(b), [])
  {
    BreakReads(b, rest);
    assert [] + Kept(b) == Kept(b);
    hide IsBreak, IsBlank, BreakLength, BreakText;
  }

  lemma JoinMeans(s: Bytes, first: Line, more: seq<Line>)
    ensures Join(s, true, [], Kept(first.brk), KeptAll(more)) == s + Folded(Broken([], first, more))
    ensures Join(s, true, [], [], KeptAll(more)) == s + Folded(Escaped(first, more))
  {
    hide KeptAll;
    assert s + [] + KeptAll(more) == s + KeptAll(more);
    assert s + Kept(first.brk) + KeptAll(more) == s + (Kept(first.brk) + KeptAll(more));
    SomeKept(more);
  }

  lemma SomeKept(ls: seq<Line>)
    ensures KeptAll(ls) == [] <==> ls == []
  {
    if ls != [] { assert |KeptAll(ls)| >= |Kept(ls[0].brk)| >= 1; }
  }

  lemma BrokenReads(g: Spacing, rest: Bytes, column: nat, s: Bytes)
    requires g.Broken? && SpacingOk(g) && !IsBlankz(rest, 0)
    ensures Gap(SpacingBytes(g) + rest, column, s, false, [], [], []) == Outer(rest, ColumnBehind(g, column), s + Folded(g))
  {
    hide Outer, Join, Gap, Folded, KeptAll, SpacingBytes, LinesOk, IsBlankz, BytesOf;
    var ls := [g.first] + g.more;
    assert ls[0] == g.first && ls[1..] == g.more;
    var more := LinesBytes(g.more) + rest;
    BrokenIs(g, rest);
    BlanksKept(g.before, BytesOf(g.first.brk) + (g.first.blanks + more), column, s, []);
    NotLf(ls, rest);
    FirstBreak(g.first.brk, g.first.blanks + more, column + |g.before|, s, [] + g.before);
    MoreOk(ls);
    BlanksSkipped(g.first.blanks, more, 0, s, Kept(g.first.brk), []);
    LinesRead(g.more, rest, |g.first.blanks|, s, Kept(g.first.brk), []);
    assert [] + KeptAll(g.more) == KeptAll(g.more);
    JoinMeans(s, g.first, g.more);
    FoldedBefore(g);
    LastLine(g.first, g.more);
  }

  lemma FoldedBefore(g: Spacing)
    requires g.Broken?
    ensures Folded(g) == Folded(Broken([], g.first, g.more))
  {
  }

  lemma MoreOk(ls: seq<Line>)
    requires LinesOk(ls) && ls != []
    ensures LinesOk(ls[1..]) && AllBlank(ls[0].blanks)
  {
  }

  lemma LastLine(first: Line, more: seq<Line>)
    ensures ([first] + more)[|more|] == if more == [] then first else more[|more| - 1]
  {
  }

  lemma EscapedReads(g: Spacing, rest: Bytes, column: nat, s: Bytes)
    requires g.Escaped? && SpacingOk(g) && !IsBlankz(rest, 0)
    ensures NonBlank(SpacingBytes(g) + rest, column, s) == Outer(rest, ColumnBehind(g, column), s + Folded(g))
  {
    hide Outer, Join, Gap, Folded, KeptAll, NonBlank, DocumentIndicator, LinesOk, IsBlankz, SpacingBytes, BytesOf;
    var ls := [g.first] + g.more;
    assert ls[0] == g.first && ls[1..] == g.more;
    var after := g.first.blanks + (LinesBytes(g.more) + rest);
    EscapedIs(g, rest);
    NotLf(ls, rest);
    EscapedBreakReads(g.first.brk, after, column, s);
    MoreOk(ls);
    BlanksSkipped(g.first.blanks, LinesBytes(g.more) + rest, 0, s, [], []);
    LinesRead(g.more, rest, |g.first.blanks|, s, [], []);
    assert [] + KeptAll(g.more) == KeptAll(g.more);
    JoinMeans(s, g.first, g.more);
    LastLine(g.first, g.more);
    if At(after, 0) == QUOTE { QuoteAtOnce(after, s); }
  }

  lemma EscapedIs(g: Spacing, rest: Bytes)
    requires g.Escaped?
    ensures SpacingBytes(g) + rest == [BACKSLASH] + (BytesOf(g.first.brk) + (g.first.blanks + (LinesBytes(g.more) + rest)))
  {
    var ls := [g.first] + g.more;
    assert ls[0] == g.first && ls[1..] == g.more;
    hide BytesOf;
  }

  /** A quote right behind an escaped break closes as it would anyway. */
  lemma QuoteAtOnce(inp: Bytes, s: Bytes)
    requires At(inp, 0) == QUOTE
    ensures Done(s, inp[1..]) == Gap(inp, 0, s, true, [], [], [])
  {
    assert Join(s, true, [], [], []) == s;
    assert !IsBlankz(inp, 0) && !DocumentIndicator(inp);
    assert NonBlank(inp, 0, s) == Done(s, inp[1..]) by { hide Blanks, Escape; }
    OuterGoesOn(inp, 0, s);
    GapEnds(inp, 0, s, [], []);
  }

  lemma EscapedBreakReads(b: Break, after: Bytes, column: nat, s: Bytes)
    requires b.Cr? ==> At(after, 0) != LF
    ensures NonBlank([BACKSLASH] + (BytesOf(b) + after), column, s)
            == if At(after, 0) == QUOTE then Done(s, after[1..]) else Gap(after, 0, s, true, [], [], [])
  {
    var inp := [BACKSLASH] + (BytesOf(b) + after);
    assert inp[1..] == BytesOf(b) + after;
    BreakReads(b, after);
    assert At(inp, 1) == At(inp[1..], 0) && At(inp, 2) == At(inp[1..], 1) && At(inp, 3) == At(inp[1..], 2);
    hide BreakLength, BreakText, Gap;
  }

  /** One spacing is read as what it stands for. */
  lemma SpacingReads(g: Spacing, rest: Bytes, column: nat, s: Bytes)
    requires SpacingOk(g) && !IsBlankz(rest, 0)
    ensures NonBlank(SpacingBytes(g) + rest, column, s) == Outer(rest, ColumnBehind(g, column), s + Folded(g))
  {
    hide Outer, Gap, Join, NonBlank;
    if g.Escaped? {
      EscapedReads(g, rest, column, s);
    } else {
      GapStarts(g, rest, column, s);
      if g.Broken? {
        BrokenReads(g, rest, column, s);
      } else {
        BlanksKept(g.blanks, rest, column, s, []);
        assert [] + g.blanks == g.blanks;
        BlanksEnd(rest, column + |g.blanks|, s, g.blanks);
      }
    }
  }

  lemma BlanksEnd(rest: Bytes, column: nat, s: Bytes, ws: Bytes)
    requires !IsBlankz(rest, 0)
    ensures Gap(rest, column, s, false, ws, [], []) == Outer(rest, column, s + ws)
  {
    hide Outer;
  }

  /** A blank or a break ends the word before it. */
  lemma GapStarts(g: Spacing, rest: Bytes, column: nat, s: Bytes)
    requires SpacingOk(g) && !g.Escaped?
    ensures NonBlank(SpacingBytes(g) + rest, column, s) == Gap(SpacingBytes(g) + rest, column, s, false, [], [], [])
  {
    hide NonBlank, Gap, IsBlank, IsBreak;
    StartsGap(g, rest);
    EndsText(SpacingBytes(g) + rest, column, s);
  }

  lemma EndsText(inp: Bytes, column: nat, s: Bytes)
    requires IsBlank(inp, 0) || IsBreak(inp, 0)
    ensures NonBlank(inp, column, s) == Gap(inp, column, s, false, [], [], [])
  {
    hide Blanks, Escape;
  }

  lemma StartsGap(g: Spacing, rest: Bytes)
    requires SpacingOk(g) && !g.Escaped?
    ensures IsBlank(SpacingBytes(g) + rest, 0) || IsBreak(SpacingBytes(g) + rest, 0)
  {
    hide IsBreak, SpacingBytes, LinesOk;
    if g.Broken? && g.before == [] {
      BrokenIs(g, rest);
      StartsBreak(g.first.brk, g.first.blanks + (LinesBytes(g.more) + rest));
      assert [] + (BytesOf(g.first.brk) + (g.first.blanks + (LinesBytes(g.more) + rest)))
        == BytesOf(g.first.brk) + (g.first.blanks + (LinesBytes(g.more) + rest));
    } else {
      BlankFirst(g, rest);
    }
  }

  lemma BlankFirst(g: Spacing, rest: Bytes)
    requires SpacingOk(g) && !g.Escaped? && (g.Broken? ==> g.before != [])
    ensures IsBlank(SpacingBytes(g) + rest, 0)
  {
    hide LinesBytes, LinesOk;
    assert (SpacingBytes(g) + rest)[0] == SpacingBytes(g)[0];
  }

  lemma BrokenIs(g: Spacing, rest: Bytes)
    requires g.Broken?
    ensures SpacingBytes(g) + rest == g.before + (BytesOf(g.first.brk) + (g.first.blanks + (LinesBytes(g.more) + rest)))
  {
    hide BytesOf;
    var ls := [g.first] + g.more;
    assert ls[0] == g.first && ls[1..] == g.more;
  }

  lemma StartsBreak(b: Break, rest: Bytes)
    ensures IsBreak(BytesOf(b) + rest, 0)
  {
    var inp := BytesOf(b) + rest;
    assert inp[..|BytesOf(b)|] == BytesOf(b);
  }

  /** A word, the next escape or the closing quote: what can stand behind a spacing. */
  lemma WordStarts(w: seq<CodePoint>, ps: seq<Part>, tail: Bytes)
    requires IsWord(w) && (w != [] || ps == [] || ps[0].spacing.Escaped?)
    ensures !IsBlankz(EncodeAll(w) + Rest(ps, tail), 0)
  {
    var inp := EncodeAll(w) + Rest(ps, tail);
    if w != [] {
      assert Encode(w[0]) <= inp;
      CharTests(w[0], inp);
      RawNotSpecial(w[0]);
    } else if ps != [] {
      assert inp == Rest(ps, tail);
      assert inp[0] == SpacingBytes(ps[0].spacing)[0] == BACKSLASH;
    } else {
      assert inp[0] == QUOTE;
    }
  }

  lemma OuterGoesOn(inp: Bytes, column: nat, s: Bytes)
    requires !IsBlankz(inp, 0) && !(column == 0 && DocumentIndicator(inp))
    ensures Outer(inp, column, s) == NonBlank(inp, column, s)
  {
    hide NonBlank;
  }

  lemma RestCons(ps: seq<Part>, tail: Bytes)
    requires ps != []
    ensures Rest(ps, tail) == SpacingBytes(ps[0].spacing) + (EncodeAll(ps[0].word) + Rest(ps[1..], tail))
  {
  }

  lemma PartsOkCons(ps: seq<Part>, column: nat, tail: Bytes)
    requires PartsOk(ps, column, tail) && ps != []
    ensures var g, w := ps[0].spacing, ps[0].word;
            var at := ColumnBehind(g, column);
            && SpacingOk(g) && IsWord(w) && (w != [] || ps[1..] == [] || ps[1..][0].spacing.Escaped?)
            && !(at == 0 && DocumentIndicator(EncodeAll(w) + Rest(ps[1..], tail)))
            && PartsOk(ps[1..], at + |w|, tail)
  {
    hide SpacingOk, IsWord, DocumentIndicator, ColumnBehind, EncodeAll, PartsBytes;
  }

  lemma {:induction false} PartsRead(ps: seq<Part>, tail: Bytes, column: nat, s: Bytes)
    requires PartsOk(ps, column, tail)
    ensures NonBlank(Rest(ps, tail), column, s) == Done(s + PartsValue(ps), tail)
    decreases |ps|
  {
    hide NonBlank, Outer, Folded, SpacingBytes, EncodeAll, IsWord, SpacingOk, DocumentIndicator, IsBlankz, ColumnBehind, PartsOk, Rest;
    if ps == [] {
      QuoteEnds(tail, column, s);
      assert s + [] == s;
    } else {
      var g, w, more := ps[0].spacing, ps[0].word, Rest(ps[1..], tail);
      var at := ColumnBehind(g, column);
      RestCons(ps, tail);
      PartsOkCons(ps, column, tail);
      WordStarts(w, ps[1..], tail);
      SpacingReads(g, EncodeAll(w) + more, column, s);
      OuterGoesOn(EncodeAll(w) + more, at, s + Folded(g));
      WordReads(w, more, at, s + Folded(g));
      PartsRead(ps[1..], tail, at + |w|, s + Folded(g) + EncodeAll(w));
      Regroup(s, Folded(g), EncodeAll(w), PartsValue(ps[1..]));
    }
  }

  lemma Regroup(a: Bytes, b: Bytes, c: Bytes, d: Bytes)
    ensures a + b + c + d == a + (b + (c + d))
  {
  }

  lemma QuoteEnds(tail: Bytes, column: nat, s: Bytes)
    ensures NonBlank(Rest([], tail), column, s) == Done(s, tail)
  {
    assert Rest([], tail) == [QUOTE] + tail;
  }

  /** The whole text between the quotes. */
  lemma TextRead(first: seq<CodePoint>, ps: seq<Part>, tail: Bytes, column: nat)
    requires IsWord(first) && PartsOk(ps, column + |first|, tail) && column > 0
    ensures Outer(EncodeAll(first) + Rest(ps, tail), column, []) == Done(EncodeAll(first) + PartsValue(ps), tail)
  {
    hide NonBlank, Encode, Rest, PartsOk;
    var inp := EncodeAll(first) + Rest(ps, tail);
    WordReads(first, Rest(ps, tail), column, []);
    assert [] + EncodeAll(first) == EncodeAll(first);
    PartsRead(ps, tail, column + |first|, EncodeAll(first));
    NotNul(first, ps, tail, column);
    OuterStarts(inp, column);
  }

  lemma OuterStarts(inp: Bytes, column: nat)
    requires column > 0 && !IsZ(inp, 0)
    ensures Outer(inp, column, []) == NonBlank(inp, column, [])
  {
    hide NonBlank;
  }

  lemma NotNul(first: seq<CodePoint>, ps: seq<Part>, tail: Bytes, column: nat)
    requires IsWord(first) && PartsOk(ps, column + |first|, tail)
    ensures !IsZ(EncodeAll(first) + Rest(ps, tail), 0)
  {
    var inp := EncodeAll(first) + Rest(ps, tail);
    if first != [] {
      assert Encode(first[0]) <= inp;
      CharTests(first[0], inp);
    } else if ps != [] {
      assert inp == Rest(ps, tail);
      RestCons(ps, tail);
      SpacingStarts(ps[0].spacing);
      assert inp[0] == SpacingBytes(ps[0].spacing)[0];
    } else {
      assert inp[0] == QUOTE;
    }
  }

  lemma SpacingStarts(g: Spacing)
    requires SpacingOk(g)
    ensures SpacingBytes(g) != [] && SpacingBytes(g)[0] != 0
  {
    if g.Broken? {
      assert ([g.first] + g.more)[0] == g.first;
      assert LinesBytes([g.first] + g.more)[0] == BytesOf(g.first.brk)[0];
      assert g.before == [] ==> SpacingBytes(g) == LinesBytes([g.first] + g.more);
    }
  }

  //
  // What the folding comes to.
  //

  /** One ordinary break is a space; of more, each after the first is a line feed; a separator is kept; an escaped break is nothing. */
  lemma FoldingMeans(before: Bytes, first: Line, more: seq<Line>)
    requires forall i | 0 <= i < |more| :: !more[i].brk.Ls? && !more[i].brk.Ps?
    ensures more == [] && !first.brk.Ls? && !first.brk.Ps? ==> Folded(Broken(before, first, more)) == [SPACE]
    ensures more != [] && !first.brk.Ls? && !first.brk.Ps? ==> Folded(Broken(before, first, more)) == seq(|more|, _ => LF)
    ensures first.brk.Ls? ==> Folded(Broken(before, first, more)) == [0xE2, 0x80, 0xA8] + seq(|more|, _ => LF)
    ensures first.brk.Ps? ==> Folded(Broken(before, first, more)) == [0xE2, 0x80, 0xA9] + seq(|more|, _ => LF)
    ensures Folded(Escaped(first, more)) == seq(|more|, _ => LF)
  {
    AllFeeds(more);
  }

  lemma {:induction false} AllFeeds(ls: seq<Line>)
    requires forall i | 0 <= i < |ls| :: !ls[i].brk.Ls? && !ls[i].brk.Ps?
    ensures KeptAll(ls) == seq(|ls|, _ => LF)
    decreases |ls|
  {
    if ls != [] {
      AllFeeds(ls[1..]);
      assert seq(|ls|, _ => LF) == [LF] + seq(|ls| - 1, _ => LF);
    }
  }

  //
  // The loops of the scanner on such a text.
  //

  method ScanLines(first: seq<CodePoint>, ps: seq<Part>, tail: Bytes, column: nat) returns (r: Option<Bytes>, left: Bytes)
    requires IsWord(first) && PartsOk(ps, column + 1 + |first|, tail)
    ensures r == Some(EncodeAll(first) + PartsValue(ps)) && left == tail
  {
    hide Outer, IsWord, PartsOk, EncodeAll, PartsValue, Rest;
    var text := EncodeAll(first) + Rest(ps, tail);
    var q := new YamlQuotedCode.QuotedScanner([QUOTE] + text, column);
    assert q.unread[1..] == text;
    TextRead(first, ps, tail, column + 1);
    r := q.ScanDoubleQuotedScalar();
    left := q.unread;
  }
}
