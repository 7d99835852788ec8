/** Every document can be laid out: here with one lexeme on each line, and a question mark for every key. */
module YamlLaying {
  import opened Wrappers
  import opened YamlTokens
  import opened YamlEvents
  import opened YamlDirectives
  import opened YamlScanCore
  import opened YamlSource
  import opened YamlEager
  import opened YamlOnDemand
  import opened YamlLayout

  /** The kind of lexeme that has such a token. */
  function KindFor(k: TokenKind): Option<Kind> {
    match k
    case StreamEndToken => Some(AtStreamEnd)
    case VersionDirectiveToken => Some(AtDirective)
    case TagDirectiveToken => Some(AtDirective)
    case DocumentStartToken => Some(AtDocumentIndicator)
    case DocumentEndToken => Some(AtDocumentIndicator)
    case FlowSequenceStartToken => Some(AtFlowStart)
    case FlowMappingStartToken => Some(AtFlowStart)
    case FlowSequenceEndToken => Some(AtFlowEnd)
    case FlowMappingEndToken => Some(AtFlowEnd)
    case FlowEntryToken => Some(AtFlowEntry)
    case BlockEntryToken => Some(AtBlockEntry)
    case KeyToken => Some(AtKey)
    case ValueToken => Some(AtValue)
    case AliasToken => Some(AtContent)
    case AnchorToken => Some(AtContent)
    case TagToken => Some(AtContent)
    case ScalarToken => Some(AtContent)
    case _ => None
  }

  /** The token at the start of a line. */
  function Put(t: Token, line: nat, column: nat): (x: Lexeme)
    requires KindFor(t.kind).Some?
    ensures x.token == t.(start := Mark(line, line, column)) && x.kind == KindFor(t.kind).value && x.ok && x.newline
    ensures x.end == Mark(line, line, column)
  {
    Lexeme(KindFor(t.kind).value, t.(start := Mark(line, line, column)), Mark(line, line, column), true, true, false)
  }

  function PutPlain(kind: TokenKind, line: nat, column: nat): (x: Lexeme)
    requires KindFor(kind).Some?
    ensures x.token == Plainly(kind).(start := Mark(line, line, column)) && x.kind == KindFor(kind).value && x.ok && x.newline
  {
    Put(Plainly(kind), line, column)
  }

  predicate Puttable(ts: seq<Token>) { forall i | 0 <= i < |ts| :: KindFor(ts[i].kind).Some? }

  function PutAll(ts: seq<Token>, line: nat, column: nat): (ls: seq<Lexeme>)
    requires Puttable(ts)
    ensures |ls| == |ts|
  {
    seq(|ts|, i requires 0 <= i < |ts| => Put(ts[i], line + i, column))
  }

  lemma PropsPuttable(p: Properties)
    ensures Puttable(PropertyTokens(p))
  {
  }

  lemma LeafPuttable(x: Source)
    ensures x.AliasOf? || x.Bare? || x.Text? ==> Puttable(Spelled(x))
  {
  }

  /** The lexemes stand on the lines from `line` on, one on each, at no less than the column. */
  predicate Stacked(ls: seq<Lexeme>, line: nat, column: int) {
    forall i :: 0 <= i < |ls| ==>
      ls[i].token.start.line == ls[i].token.start.index == line + i && ls[i].end == ls[i].token.start
      && ls[i].token.start.column >= column && ls[i].newline && !ls[i].kind.AtStreamEnd?
  }

  lemma StackedConcat(a: seq<Lexeme>, b: seq<Lexeme>, line: nat, column: int)
    requires Stacked(a, line, column) && Stacked(b, line + |a|, column)
    ensures Stacked(a + b, line, column)
  {
    forall i | 0 <= i < |b| ensures (a + b)[|a| + i] == b[i] {}
  }

  lemma StackedDeeper(ls: seq<Lexeme>, line: nat, p: int, q: int)
    requires Stacked(ls, line, q) && p <= q
    ensures Stacked(ls, line, p)
  {
  }

  //
  // Inside brackets.
  //

  function FlowLexemes(x: Source, line: nat, column: nat): seq<Lexeme>
    decreases x, 2
  {
    match x
    case Nothing => []
    case Items(p, form, items) =>
      PropsPuttable(p);
      var n := |PropertyTokens(p)|;
      PutAll(PropertyTokens(p), line, column) + [PutPlain(FlowSequenceStartToken, line + n, column)]
      + ItemLexemes(items, true, form.InFlow? && form.comma, line + n + 1, column)
    case Pairs(p, form, entries) =>
      PropsPuttable(p);
      var n := |PropertyTokens(p)|;
      PutAll(PropertyTokens(p), line, column) + [PutPlain(FlowMappingStartToken, line + n, column)]
      + EntryListLexemes(entries, true, form.InFlow? && form.comma, line + n + 1, column)
    case Single(e) => EntryLexemes(e, line, column)
    case _ => LeafPuttable(x); PutAll(Spelled(x), line, column)
  }

  function EndLexemes(comma: bool, end: TokenKind, line: nat, column: nat): seq<Lexeme>
    requires KindFor(end).Some?
  {
    if comma then [PutPlain(FlowEntryToken, line, column), PutPlain(end, line + 1, column)] else [PutPlain(end, line, column)]
  }

  function CommaLexemes(first: bool, line: nat, column: nat): seq<Lexeme> {
    if first then [] else [PutPlain(FlowEntryToken, line, column)]
  }

  function ItemLexemes(xs: seq<Source>, first: bool, comma: bool, line: nat, column: nat): seq<Lexeme>
    decreases xs, 0
  {
    if xs == [] then EndLexemes(comma, FlowSequenceEndToken, line, column)
    else
      var c := CommaLexemes(first, line, column);
      var x := FlowLexemes(xs[0], line + |c|, column);
      c + (x + ItemLexemes(xs[1..], false, comma, line + |c| + |x|, column))
  }

  function EntryListLexemes(es: seq<Entry>, first: bool, comma: bool, line: nat, column: nat): seq<Lexeme>
    decreases es, 0
  {
    if es == [] then EndLexemes(comma, FlowMappingEndToken, line, column)
    else
      var c := CommaLexemes(first, line, column);
      var x := EntryLexemes(es[0], line + |c|, column);
      c + (x + EntryListLexemes(es[1..], false, comma, line + |c| + |x|, column))
  }

  function EntryLexemes(e: Entry, line: nat, column: nat): seq<Lexeme>
    decreases e, 1
  {
    if e.lone then FlowLexemes(e.key, line, column)
    else
      var key := FlowLexemes(e.key, line + 1, column);
      var n := line + 1 + |key|;
      [PutPlain(KeyToken, line, column)] + key
      + if e.marked then [PutPlain(ValueToken, n, column)] + FlowLexemes(e.value, n + 1, column) else []
  }

  //
  // In blocks.
  //

  function BlockLexemes(x: Source, line: nat, p: int): seq<Lexeme>
    requires p >= -1
    decreases x, 3
  {
    if x.Items? && !x.form.InFlow? then
      PropsPuttable(x.props);
      var n := |PropertyTokens(x.props)|;
      var q := if x.form.InBlock? || p < 0 then p + 1 else p;
      PutAll(PropertyTokens(x.props), line, p + 1) + DashLexemes(x.items, line + n, q)
    else if x.Pairs? && !x.form.InFlow? then
      PropsPuttable(x.props);
      var n := |PropertyTokens(x.props)|;
      PutAll(PropertyTokens(x.props), line, p + 1) + RowLexemes(x.entries, line + n, p + 1)
    else FlowLexemes(x, line, p + 1)
  }

  function DashLexemes(xs: seq<Source>, line: nat, q: nat): seq<Lexeme>
    decreases xs, 0
  {
    if xs == [] then []
    else
      var x := BlockLexemes(xs[0], line + 1, q);
      [PutPlain(BlockEntryToken, line, q)] + (x + DashLexemes(xs[1..], line + 1 + |x|, q))
  }

  function RowLexemes(es: seq<Entry>, line: nat, q: nat): seq<Lexeme>
    decreases es, 0
  {
    if es == [] then []
    else
      var row := OneRowLexemes(es[0], line, q);
      row + RowLexemes(es[1..], line + |row|, q)
  }

  function OneRowLexemes(e: Entry, line: nat, q: nat): seq<Lexeme>
    decreases e, 0
  {
    var key := BlockLexemes(e.key, line + 1, q);
    var n := line + 1 + |key|;
    [PutPlain(KeyToken, line, q)] + key
    + if e.marked then [PutPlain(ValueToken, n, q)] + BlockLexemes(e.value, n + 1, q) else []
  }

  //
  // They are laid out.
  //

  lemma PutsSay(ts: seq<Token>, line: nat, column: nat)
    requires Puttable(ts) && forall i | 0 <= i < |ts| :: KindFor(ts[i].kind) == Some(AtContent) && Unplaced(ts[i]) == ts[i]
    ensures Says(PutAll(ts, line, column), ts) && Stacked(PutAll(ts, line, column), line, column)
  {
  }

  lemma PropsSay(p: Properties, line: nat, column: nat)
    ensures Puttable(PropertyTokens(p))
    ensures Says(PutAll(PropertyTokens(p), line, column), PropertyTokens(p)) && Stacked(PutAll(PropertyTokens(p), line, column), line, column)
  {
    PropsPuttable(p);
    PutsSay(PropertyTokens(p), line, column);
  }

  lemma LeafSays(x: Source, line: nat, column: nat)
    requires x.AliasOf? || x.Bare? || x.Text?
    ensures Puttable(Spelled(x))
    ensures Says(PutAll(Spelled(x), line, column), Spelled(x)) && Stacked(PutAll(Spelled(x), line, column), line, column)
  {
    LeafPuttable(x);
    PutsSay(Spelled(x), line, column);
  }

  lemma PlainIs(kind: TokenKind, line: nat, column: nat)
    requires KindFor(kind).Some?
    ensures Is(PutPlain(kind, line, column), KindFor(kind).value, kind)
    ensures !kind.StreamEndToken? ==> Stacked([PutPlain(kind, line, column)], line, column)
  {
  }

  lemma EndLaid(comma: bool, end: TokenKind, line: nat, column: nat)
    requires KindFor(end) == Some(AtFlowEnd)
    ensures EndWritten(comma, end, EndLexemes(comma, end, line, column)) && Stacked(EndLexemes(comma, end, line, column), line, column)
  {
  }

  lemma CommaLaid(first: bool, line: nat, column: nat, rest: seq<Lexeme>)
    ensures Separated(first, CommaLexemes(first, line, column) + rest) && Behind(first, CommaLexemes(first, line, column) + rest) == rest
    ensures Stacked(CommaLexemes(first, line, column), line, column)
  {
    if first { assert [] + rest == rest; } else { assert ([PutPlain(FlowEntryToken, line, column)] + rest)[1..] == rest; }
  }

  /** It fits a place inside brackets, or it is a word. */
  ghost predicate FlowFits(x: Source, at: Place, tags: seq<TagDirective>) {
    Fits(x, at, tags) && (Flowing(at) || !(x.Items? || x.Pairs?) || x.form.InFlow?)
  }

  lemma {:induction false} FlowLaid(x: Source, at: Place, tags: seq<TagDirective>, line: nat, column: nat)
    requires FlowFits(x, at, tags)
    ensures ItemWritten(x, FlowLexemes(x, line, column)) && (x.Single? ==> at.FlowItem?)
    ensures Stacked(FlowLexemes(x, line, column), line, column)
    decreases x, 2
  {
    hide ItemsWritten, EntriesWritten, EntryWritten, ItemLexemes, EntryListLexemes, EntryLexemes, Says, Stacked, Spelled, PutAll, PropertyTokens, TagOf;
    match x {
      case Nothing => assert Stacked([], line, column) by { NoneStacked(line, column); }
      case Items(p, form, items) =>
        ItemsLaid(items, true, form.comma, tags, line + |PropertyTokens(p)| + 1, column);
        BracketLaid(p, FlowSequenceStartToken, ItemLexemes(items, true, form.comma, line + |PropertyTokens(p)| + 1, column), line, column);
      case Pairs(p, form, entries) =>
        EntryListLaid(entries, true, form.comma, tags, line + |PropertyTokens(p)| + 1, column);
        BracketLaid(p, FlowMappingStartToken, EntryListLexemes(entries, true, form.comma, line + |PropertyTokens(p)| + 1, column), line, column);
      case Single(e) =>
        EntryLaid(e, SingleKey, SingleValue, tags, line, column);
      case _ => LeafSays(x, line, column);
    }
  }

  lemma NoneStacked(line: nat, column: int)
    ensures Stacked([], line, column)
  {
  }

  lemma BracketLaid(p: Properties, open: TokenKind, rest: seq<Lexeme>, line: nat, column: nat)
    requires KindFor(open) == Some(AtFlowStart) && Stacked(rest, line + |PropertyTokens(p)| + 1, column)
    ensures Puttable(PropertyTokens(p))
    ensures var n := |PropertyTokens(p)|;
      var ls := PutAll(PropertyTokens(p), line, column) + [PutPlain(open, line + n, column)] + rest;
      && n < |ls| && Says(ls[..n], PropertyTokens(p)) && Is(ls[n], AtFlowStart, open) && ls[n + 1..] == rest && Stacked(ls, line, column)
  {
    hide Says, Stacked, PropertyTokens, PutAll;
    PropsSay(p, line, column);
    PlainIs(open, line + |PropertyTokens(p)|, column);
    var n, props, bracket := |PropertyTokens(p)|, PutAll(PropertyTokens(p), line, column), [PutPlain(open, line + |PropertyTokens(p)|, column)];
    StackedConcat(props, bracket, line, column);
    StackedConcat(props + bracket, rest, line, column);
    assert (props + bracket + rest)[..n] == props;
  }

  lemma {:induction false} ItemsLaid(xs: seq<Source>, first: bool, comma: bool, tags: seq<TagDirective>, line: nat, column: nat)
    requires forall i :: 0 <= i < |xs| ==> Fits(xs[i], FlowItem, tags)
    ensures ItemsWritten(xs, first, comma, ItemLexemes(xs, first, comma, line, column))
    ensures Stacked(ItemLexemes(xs, first, comma, line, column), line, column)
    decreases xs, 0
  {
    hide ItemWritten, FlowLexemes, Stacked, Fits, EndWritten, EndLexemes, CommaLexemes, Separated, Behind;
    if xs == [] {
      EndLaid(comma, FlowSequenceEndToken, line, column);
    } else {
      var c := CommaLexemes(first, line, column);
      var x := FlowLexemes(xs[0], line + |c|, column);
      var rest := ItemLexemes(xs[1..], false, comma, line + |c| + |x|, column);
      FlowLaid(xs[0], FlowItem, tags, line + |c|, column);
      ItemsLaid(xs[1..], false, comma, tags, line + |c| + |x|, column);
      CommaLaid(first, line, column, x + rest);
      StackedConcat(x, rest, line + |c|, column);
      StackedConcat(c, x + rest, line, column);
      assert (x + rest)[..|x|] == x && (x + rest)[|x|..] == rest;
    }
  }

  lemma {:induction false} EntryListLaid(es: seq<Entry>, first: bool, comma: bool, tags: seq<TagDirective>, line: nat, column: nat)
    requires forall i :: 0 <= i < |es| ==> EntryFits(es[i], if es[i].lone then LoneKey else FlowKey, FlowValue, tags)
    ensures EntriesWritten(es, first, comma, EntryListLexemes(es, first, comma, line, column))
    ensures Stacked(EntryListLexemes(es, first, comma, line, column), line, column)
    decreases es, 0
  {
    hide EntryWritten, EntryLexemes, Stacked, EntryFits, EndWritten, EndLexemes, CommaLexemes, Separated, Behind;
    if es == [] {
      EndLaid(comma, FlowMappingEndToken, line, column);
    } else {
      var c := CommaLexemes(first, line, column);
      var x := EntryLexemes(es[0], line + |c|, column);
      var rest := EntryListLexemes(es[1..], false, comma, line + |c| + |x|, column);
      EntryLaid(es[0], if es[0].lone then LoneKey else FlowKey, FlowValue, tags, line + |c|, column);
      EntryListLaid(es[1..], false, comma, tags, line + |c| + |x|, column);
      CommaLaid(first, line, column, x + rest);
      StackedConcat(x, rest, line + |c|, column);
      StackedConcat(c, x + rest, line, column);
      assert (x + rest)[..|x|] == x && (x + rest)[|x|..] == rest;
    }
  }

  lemma {:induction false} EntryLaid(e: Entry, k: Place, v: Place, tags: seq<TagDirective>, line: nat, column: nat)
    requires EntryFits(e, k, v, tags) && Flowing(k) && Flowing(v) && !k.FlowItem? && !v.FlowItem?
    ensures EntryWritten(e, EntryLexemes(e, line, column)) && Stacked(EntryLexemes(e, line, column), line, column)
    decreases e, 1
  {
    hide FlowLexemes, FlowWritten, Stacked, Fits;
    if e.lone {
      FlowLaid(e.key, k, tags, line, column);
    } else {
      var key := FlowLexemes(e.key, line + 1, column);
      var n, mark := line + 1 + |key|, PutPlain(KeyToken, line, column);
      FlowLaid(e.key, k, tags, line + 1, column);
      PlainIs(KeyToken, line, column);
      StackedConcat([mark], key, line, column);
      var ls := EntryLexemes(e, line, column);
      if e.marked {
        var colon, value := PutPlain(ValueToken, n, column), FlowLexemes(e.value, n + 1, column);
        FlowLaid(e.value, v, tags, n + 1, column);
        PlainIs(ValueToken, n, column);
        StackedConcat([colon], value, n, column);
        StackedConcat([mark] + key, [colon] + value, line, column);
        assert ls == [mark] + key + ([colon] + value) && ls[1..|key| + 1] == key && ls[|key| + 2..] == value;
        assert ExplicitAt(e, ls, |key| + 1);
      } else {
        assert ls == [mark] + key + [] && ls == [mark] + key && ls[1..] == key;
      }
    }
  }

  /** No block collection is empty: no lexeme would stand for it. */
  ghost predicate Filled(x: Source)
    decreases x, 0
  {
    match x
    case Items(_, form, items) => (form.InFlow? || items != []) && forall i :: 0 <= i < |items| ==> Filled(items[i])
    case Pairs(_, form, entries) =>
      (form.InFlow? || entries != []) && forall i :: 0 <= i < |entries| ==> Filled(entries[i].key) && Filled(entries[i].value)
    case Single(e) => Filled(e.key) && Filled(e.value)
    case _ => true
  }

  lemma LeafNotEmpty(x: Source, at: Place, tags: seq<TagDirective>, line: nat, column: nat)
    requires Fits(x, at, tags) && !x.Nothing? && !x.Single?
    ensures FlowLexemes(x, line, column) != []
  {
    hide ItemLexemes, EntryListLexemes;
  }

  lemma WordLaid(x: Source, at: Place, tags: seq<TagDirective>, line: nat, p: int, allowed: bool)
    requires FlowFits(x, at, tags) && !Flowing(at) && p >= -1
    ensures BlockWritten(x, FlowLexemes(x, line, p + 1), p, allowed) && Stacked(FlowLexemes(x, line, p + 1), line, p)
  {
    hide FlowLexemes, FlowWritten, Fits, EntryWritten, PropsOf;
    var ls := FlowLexemes(x, line, p + 1);
    FlowLaid(x, at, tags, line, p + 1);
    StackedDeeper(ls, line, p, p + 1);
    FitsHere(x, at, tags);
    if x.Nothing? {
      NothingLaid(ls);
    } else {
      LeafNotEmpty(x, at, tags, line, p + 1);
      assert DeeperThan(p, Front(x, ls));
      assert WordWritten(x, ls, p);
    }
  }

  lemma NothingLaid(ls: seq<Lexeme>)
    requires FlowWritten(Nothing, ls)
    ensures ls == []
  {
  }

  lemma FitsHere(x: Source, at: Place, tags: seq<TagDirective>)
    requires Fits(x, at, tags)
    ensures x.Single? ==> at.FlowItem?
    ensures x.Items? && x.form.Indentless? ==> TakesIndentless(at)
    ensures x.Pairs? ==> !x.form.Indentless?
  {
  }

  lemma {:induction false} BlockLaid(x: Source, at: Place, tags: seq<TagDirective>, line: nat, p: int, allowed: bool)
    requires Fits(x, at, tags) && !Flowing(at) && Filled(x) && p >= -1 && (TakesIndentless(at) ==> p >= 0)
    ensures BlockWritten(x, BlockLexemes(x, line, p), p, allowed) && Stacked(BlockLexemes(x, line, p), line, p)
    decreases x, 2
  {
    hide FlowLexemes, DashLexemes, RowLexemes, DashesWritten, RowsWritten, Stacked, PropertyTokens, Says, PutAll, EntryFits, TagOf, PropsBefore;
    FitsHere(x, at, tags);
    if (x.Items? || x.Pairs?) && !x.form.InFlow? {
      var n := |PropertyTokens(x.props)|;
      var q: nat := if x.form.InBlock? then p + 1 else p;
      var ls := BlockLexemes(x, line, p);
      var body := if x.Items? then DashLexemes(x.items, line + n, q) else RowLexemes(x.entries, line + n, q);
      PropsSay(x.props, line, p + 1);
      var props := PutAll(PropertyTokens(x.props), line, p + 1);
      assert ls == props + body;
      if x.Items? {
        DashesLaid(x.items, if x.form.InBlock? then BlockItem else IndentlessItem, tags, line + n, q);
      } else {
        RowsLaid(x.entries, tags, line + n, q);
      }
      BeforeLaid(x.props, props, body, line, p, q);
      assert ls[n] == body[0] && ls[n..] == body;
    } else {
      hide Fits;
      WordLaid(x, at, tags, line, p, allowed);
    }
  }

  lemma BeforeLaid(p: Properties, props: seq<Lexeme>, body: seq<Lexeme>, line: nat, column: int, q: int)
    requires |props| == |PropertyTokens(p)| && Says(props, PropertyTokens(p)) && Stacked(props, line, column + 1)
    requires body != [] && Stacked(body, line + |props|, q) && column <= q
    ensures PropsBefore(p, props + body, column) && Stacked(props + body, line, column)
  {
    hide PropertyTokens, Says;
    StackedDeeper(props, line, column, column + 1);
    StackedDeeper(body, line + |props|, column, q);
    StackedConcat(props, body, line, column);
    assert (props + body)[..|props|] == props;
  }

  lemma {:induction false} DashesLaid(xs: seq<Source>, at: Place, tags: seq<TagDirective>, line: nat, q: nat)
    requires (at.BlockItem? || at.IndentlessItem?) && forall i :: 0 <= i < |xs| ==> Fits(xs[i], at, tags) && Filled(xs[i])
    ensures var ls := DashLexemes(xs, line, q);
      && DashesWritten(xs, q, ls) && Stacked(ls, line, q)
      && (ls != [] ==> ls[0].newline) && (xs != [] ==> ls != [] && ls[0].token.start.column == q)
    decreases xs, 0
  {
    hide BlockLexemes, BlockWritten, Stacked, Fits, Filled, DashesWritten;
    if xs == [] {
      NoneStacked(line, q);
      assert DashesWritten(xs, q, []) by { NoDashes(q); }
    } else {
      var dash, x := PutPlain(BlockEntryToken, line, q), BlockLexemes(xs[0], line + 1, q);
      var rest := DashLexemes(xs[1..], line + 1 + |x|, q);
      BlockLaid(xs[0], at, tags, line + 1, q, true);
      DashesLaid(xs[1..], at, tags, line + 1 + |x|, q);
      PlainIs(BlockEntryToken, line, q);
      StackedConcat(x, rest, line + 1, q);
      StackedConcat([dash], x + rest, line, q);
      hide DashLexemes;
      DashParts(xs, q, dash, x, rest);
    }
  }

  lemma NoDashes(q: nat)
    ensures DashesWritten([], q, [])
  {
  }

  lemma DashParts(xs: seq<Source>, q: nat, dash: Lexeme, x: seq<Lexeme>, rest: seq<Lexeme>)
    requires xs != [] && Is(dash, AtBlockEntry, BlockEntryToken) && dash.token.start.column == q && BlockWritten(xs[0], x, q, true)
    requires DashesWritten(xs[1..], q, rest) && (rest != [] ==> rest[0].newline)
    ensures DashesWritten(xs, q, [dash] + (x + rest))
  {
    hide BlockWritten, Is;
    var ls := [dash] + (x + rest);
    assert ls[1..|x| + 1] == x && ls[|x| + 1..] == rest;
    assert |x| + 1 < |ls| ==> ls[|x| + 1] == rest[0];
  }

  lemma {:induction false} RowsLaid(es: seq<Entry>, tags: seq<TagDirective>, line: nat, q: nat)
    requires forall i :: 0 <= i < |es| ==>
               !es[i].lone && EntryFits(es[i], BlockKey, BlockValue, tags) && Filled(es[i].key) && Filled(es[i].value)
    ensures var ls := RowLexemes(es, line, q);
      && RowsWritten(es, q, ls) && Stacked(ls, line, q)
      && (es != [] ==> ls != [] && ls[0].token.start.column == q && ls[0].newline)
    decreases es, 0
  {
    hide OneRowLexemes, RowWritten, Stacked, EntryFits, Filled;
    var ls := RowLexemes(es, line, q);
    if es == [] {
      NoneStacked(line, q);
    } else {
      var row := OneRowLexemes(es[0], line, q);
      var rest := RowLexemes(es[1..], line + |row|, q);
      RowLaid(es[0], tags, line, q);
      RowsLaid(es[1..], tags, line + |row|, q);
      StackedConcat(row, rest, line, q);
      assert ls == row + rest && ls[..|row|] == row && ls[|row|..] == rest && ls[0] == row[0];
      assert |row| < |ls| ==> ls[|row|] == rest[0];
    }
  }

  lemma {:induction false} RowLaid(e: Entry, tags: seq<TagDirective>, line: nat, q: nat)
    requires !e.lone && EntryFits(e, BlockKey, BlockValue, tags) && Filled(e.key) && Filled(e.value)
    ensures var ls := OneRowLexemes(e, line, q);
      RowWritten(e, q, ls) && Stacked(ls, line, q) && ls != [] && ls[0].token.start.column == q && ls[0].newline
    decreases e, 1
  {
    hide BlockLexemes, BlockWritten, Stacked, Fits, Filled, Below, EntryFits, Put, PutPlain;
    EntryParts(e, tags);
    var key := BlockLexemes(e.key, line + 1, q);
    var n, mark, ls := line + 1 + |key|, PutPlain(KeyToken, line, q), OneRowLexemes(e, line, q);
    BlockLaid(e.key, BlockKey, tags, line + 1, q, true);
    PlainIs(KeyToken, line, q);
    StackedConcat([mark], key, line, q);
    hide RowWritten;
    if e.marked {
      var colon, value := PutPlain(ValueToken, n, q), BlockLexemes(e.value, n + 1, q);
      BlockLaid(e.value, BlockValue, tags, n + 1, q, true);
      PlainIs(ValueToken, n, q);
      StackedConcat([colon], value, n, q);
      StackedConcat([mark] + key, [colon] + value, line, q);
      StackedBelow(colon, key, line + 1, q);
      MarkedRow(e, q, mark, key, colon, value);
    } else {
      assert ls == [mark] + key;
      UnmarkedRow(e, q, mark, key);
    }
  }

  lemma EntryParts(e: Entry, tags: seq<TagDirective>)
    requires EntryFits(e, BlockKey, BlockValue, tags)
    ensures Fits(e.key, BlockKey, tags) && (e.marked ==> Fits(e.value, BlockValue, tags))
  {
    hide Fits;
  }

  lemma MarkedRow(e: Entry, q: nat, mark: Lexeme, key: seq<Lexeme>, colon: Lexeme, value: seq<Lexeme>)
    requires !e.lone && e.marked && Is(mark, AtKey, KeyToken) && Is(colon, AtValue, ValueToken)
    requires colon.token.start.column == q && colon.newline && Below(colon, key)
    requires BlockWritten(e.key, key, q, true) && BlockWritten(e.value, value, q, true)
    ensures RowWritten(e, q, [mark] + key + ([colon] + value))
  {
    hide BlockWritten, Is, Below;
    var ls := [mark] + key + ([colon] + value);
    assert ls[1..|key| + 1] == key && ls[|key| + 1] == colon && ls[|key| + 2..] == value && ls[0] == mark;
    assert QuestionRowAt(e, q, ls, |key| + 1);
  }

  lemma UnmarkedRow(e: Entry, q: nat, mark: Lexeme, key: seq<Lexeme>)
    requires !e.lone && !e.marked && Is(mark, AtKey, KeyToken) && BlockWritten(e.key, key, q, true)
    ensures RowWritten(e, q, [mark] + key)
  {
    hide BlockWritten, Is;
    var ls := [mark] + key;
    assert ls[1..|key| + 1] == key && ls[0] == mark;
    assert QuestionRowAt(e, q, ls, |key| + 1);
  }

  lemma StackedBelow(x: Lexeme, ls: seq<Lexeme>, line: nat, q: int)
    requires Stacked(ls, line, q) && x.token.start.line == line + |ls|
    ensures Below(x, ls)
  {
  }

  //
  // Documents.
  //

  /** Directives are given without places, and no block collection is empty. */
  ghost predicate Layable(docs: seq<DocSource>) {
    forall i :: 0 <= i < |docs| ==> Filled(docs[i].root) && AllUnplaced(docs[i].directives) == docs[i].directives
  }

  function DocLexemes(doc: DocSource, line: nat): seq<Lexeme>
    requires Puttable(doc.directives)
  {
    var n := |doc.directives|;
    var h := if doc.explicit then PutAll(doc.directives, line, 0) + [PutPlain(DocumentStartToken, line + n, 0)] else [];
    var root := BlockLexemes(doc.root, line + |h|, -1);
    h + (root + EndsLexemes(doc.ends, line + |h| + |root|))
  }

  function EndsLexemes(n: nat, line: nat): seq<Lexeme> {
    if n == 0 then [] else [PutPlain(DocumentEndToken, line, 0)] + EndsLexemes(n - 1, line + 1)
  }

  function StreamLexemes(docs: seq<DocSource>, line: nat): seq<Lexeme>
    requires forall i | 0 <= i < |docs| :: Puttable(docs[i].directives)
  {
    if docs == [] then [PutPlain(StreamEndToken, line, 0)]
    else
      var x := DocLexemes(docs[0], line);
      x + StreamLexemes(docs[1..], line + |x|)
  }

  lemma {:induction false} DirectivesPuttable(ds: seq<Token>, d: Declarations)
    requires DeclareAll(ds, d).Some?
    ensures Puttable(ds) && forall i | 0 <= i < |ds| :: KindFor(ds[i].kind) == Some(AtDirective)
    decreases |ds|
  {
    hide Declared;
    if ds != [] { DirectivesPuttable(ds[1..], Declare(ds[0], d).value); }
  }

  lemma HeaderLaid(ds: seq<Token>, line: nat)
    requires Puttable(ds) && AllUnplaced(ds) == ds && forall i | 0 <= i < |ds| :: KindFor(ds[i].kind) == Some(AtDirective)
    ensures DirectivesWritten(PutAll(ds, line, 0), ds) && Stacked(PutAll(ds, line, 0), line, -1)
    ensures Indicates([PutPlain(DocumentStartToken, line + |ds|, 0)], 1, DocumentStartToken)
  {
    forall i | 0 <= i < |ds| ensures Unplaced(ds[i]) == ds[i] { assert AllUnplaced(ds)[i] == ds[i]; }
  }

  lemma DocLaid(doc: DocSource, line: nat, first: bool)
    requires GoodDoc(doc, first) && Filled(doc.root) && AllUnplaced(doc.directives) == doc.directives
    ensures Puttable(doc.directives) && DocWritten(doc, DocLexemes(doc, line)) && Stacked(DocLexemes(doc, line), line, -1)
  {
    hide BlockLexemes, BlockWritten, Stacked, Fits, Filled, DirectivesWritten, PutAll, AllUnplaced, DeclareAll, EndsLexemes, Indicates, Puttable, GoodDoc, DocWritten, TagsOf;
    GoodParts(doc, first);
    DirectivesPuttable(doc.directives, UNDECLARED);
    var n := |doc.directives|;
    var ds, start := PutAll(doc.directives, line, 0), [PutPlain(DocumentStartToken, line + n, 0)];
    var h := if doc.explicit then ds + start else [];
    var root := BlockLexemes(doc.root, line + |h|, -1);
    var ends := EndsLexemes(doc.ends, line + |h| + |root|);
    HeaderLaid(doc.directives, line);
    BlockLaid(doc.root, Root, TagsOf(doc), line + |h|, -1, !doc.explicit);
    EndsLaid(doc.ends, line + |h| + |root|);
    HeadStacked(doc.explicit, ds, start, line);
    StackedConcat(root, ends, line + |h|, -1);
    StackedConcat(h, root + ends, line, -1);
    DocParts(doc, ds, start, root, ends);
  }

  lemma GoodParts(doc: DocSource, first: bool)
    requires GoodDoc(doc, first)
    ensures DeclareAll(doc.directives, UNDECLARED).Some? && Fits(doc.root, Root, TagsOf(doc))
  {
  }

  lemma DocParts(doc: DocSource, ds: seq<Lexeme>, start: seq<Lexeme>, root: seq<Lexeme>, ends: seq<Lexeme>)
    requires |ds| == |doc.directives| && |start| == 1 && DirectivesWritten(ds, doc.directives) && Indicates(start, 1, DocumentStartToken)
    requires BlockWritten(doc.root, root, -1, !doc.explicit) && Indicates(ends, doc.ends, DocumentEndToken)
    ensures DocWritten(doc, (if doc.explicit then ds + start else []) + (root + ends))
  {
    hide BlockWritten, DirectivesWritten, Indicates;
    var h := if doc.explicit then ds + start else [];
    var ls := h + (root + ends);
    assert ls[|h|..|h| + |root|] == root && ls[|h| + |root|..] == ends;
    if doc.explicit { assert ls[..|h| - 1] == ds && [ls[|h| - 1]] == start; }
    assert DocAt(doc, ls, |h|, |h| + |root|);
  }

  lemma HeadStacked(explicit: bool, ds: seq<Lexeme>, start: seq<Lexeme>, line: nat)
    requires Stacked(ds, line, -1) && start == [PutPlain(DocumentStartToken, line + |ds|, 0)]
    ensures Stacked(if explicit then ds + start else [], line, -1)
  {
    if explicit { StackedConcat(ds, start, line, -1); }
  }

  lemma {:induction false} EndsLaid(n: nat, line: nat)
    ensures Indicates(EndsLexemes(n, line), n, DocumentEndToken) && Stacked(EndsLexemes(n, line), line, -1)
    decreases n
  {
    if n > 0 { EndsLaid(n - 1, line + 1); }
  }

  /** The lines go on to the last lexeme, which ends the stream. */
  predicate StackedStream(ls: seq<Lexeme>, line: nat) {
    && ls != [] && Stacked(ls[..|ls| - 1], line, -1)
    && ls[|ls| - 1].token.start == Mark(line + |ls| - 1, line + |ls| - 1, 0)
  }

  lemma {:induction false} DocsPuttable(docs: seq<DocSource>, first: bool)
    requires GoodDocs(docs, first)
    ensures forall i | 0 <= i < |docs| :: Puttable(docs[i].directives)
  {
    hide Puttable, DeclareAll, Fits;
    forall i | 0 <= i < |docs| ensures Puttable(docs[i].directives) {
      assert GoodDoc(docs[i], first && i == 0);
      DirectivesPuttable(docs[i].directives, UNDECLARED);
    }
  }

  lemma {:induction false} DocsLaid(docs: seq<DocSource>, line: nat, first: bool)
    requires GoodDocs(docs, first) && Layable(docs)
    ensures forall i | 0 <= i < |docs| :: Puttable(docs[i].directives)
    ensures StreamWritten(docs, StreamLexemes(docs, line), first) && StackedStream(StreamLexemes(docs, line), line)
    decreases |docs|
  {
    hide DocLexemes, DocWritten, GoodDoc, Filled, Puttable, Stacked, AllUnplaced;
    DocsPuttable(docs, first);
    if docs == [] {
      NoneStacked(line, -1);
    } else {
      LaterDocs(docs, first);
      DocLaid(docs[0], line, first);
      var x := DocLexemes(docs[0], line);
      DocsLaid(docs[1..], line + |x|, false);
      hide StackedStream;
      StreamJoins(x, StreamLexemes(docs[1..], line + |x|), line);
    }
  }

  lemma LaterDocs(docs: seq<DocSource>, first: bool)
    requires GoodDocs(docs, first) && Layable(docs) && docs != []
    ensures GoodDocs(docs[1..], false) && Layable(docs[1..])
    ensures GoodDoc(docs[0], first) && (docs[0].explicit || first)
  {
    hide GoodDoc, Filled, AllUnplaced;
    assert GoodDoc(docs[0], first && 0 == 0);
    FirstExplicit(docs[0], first);
    forall i | 0 <= i < |docs[1..]| ensures GoodDoc(docs[1..][i], false && i == 0) {
      assert GoodDoc(docs[i + 1], first && i + 1 == 0);
    }
  }

  lemma StreamJoins(x: seq<Lexeme>, rest: seq<Lexeme>, line: nat)
    requires Stacked(x, line, -1) && StackedStream(rest, line + |x|)
    ensures (x + rest)[..|x|] == x && (x + rest)[|x|..] == rest && StackedStream(x + rest, line)
  {
    hide Stacked;
    StackedConcat(x, rest[..|rest| - 1], line, -1);
    assert (x + rest)[..|x + rest| - 1] == x + rest[..|rest| - 1];
  }

  lemma FirstExplicit(doc: DocSource, first: bool)
    requires GoodDoc(doc, first)
    ensures doc.explicit || first
  {
  }

  lemma StackedForward(ls: seq<Lexeme>, line: nat)
    requires StackedStream(ls, line) && ls[|ls| - 1].kind.AtStreamEnd?
    ensures Forward(ls)
  {
    forall i | 0 <= i < |ls| ensures ls[i].token.start.line == ls[i].token.start.index == line + i && EndOf(ls[i]) == ls[i].token.start {
      if i < |ls| - 1 { assert ls[..|ls| - 1][i] == ls[i]; }
    }
  }

  /** All documents that fit, and none of whose block collections is empty, can be laid out. */
  lemma StreamLaid(docs: seq<DocSource>) returns (ls: seq<Lexeme>)
    requires GoodDocs(docs, true) && Layable(docs)
    ensures StreamWritten(docs, ls, true) && Forward(ls)
  {
    hide GoodDocs, Layable, StreamWritten, Forward;
    DocsLaid(docs, 0, true);
    ls := StreamLexemes(docs, 0);
    LastEnds(docs, 0);
    StackedForward(ls, 0);
  }

  lemma {:induction false} LastEnds(docs: seq<DocSource>, line: nat)
    requires forall i | 0 <= i < |docs| :: Puttable(docs[i].directives)
    ensures var ls := StreamLexemes(docs, line); ls != [] && ls[|ls| - 1].kind.AtStreamEnd?
    decreases |docs|
  {
    hide DocLexemes, Puttable;
    if docs != [] { LastEnds(docs[1..], line + |DocLexemes(docs[0], line)|); }
  }
}
