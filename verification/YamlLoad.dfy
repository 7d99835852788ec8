/**
 From lexemes to events: the scanner on demand, then the parser. However documents are laid out, the events are
 those of the trees they stand for.
 */
module YamlLoad {
  import opened Wrappers
  import opened YamlTokens
  import YamlEvents
  import opened YamlDirectives
  import opened YamlScanCore
  import opened YamlFetch
  import opened YamlSource
  import opened YamlEager
  import opened YamlOnDemand
  import opened YamlLayout
  import opened YamlDocScan
  import opened YamlLaying
  import opened YamlWriting
  import YamlMoves
  import YamlSpelling
  import YamlParseBack
  import YamlParser
  import YamlScanner

  //
  // The parser does not look at places.
  //

  predicate Alike(a: seq<Token>, b: seq<Token>) { |a| == |b| && forall i :: 0 <= i < |a| ==> Unplaced(a[i]) == Unplaced(b[i]) }

  lemma KindsAlike(a: seq<Token>, b: seq<Token>)
    requires Alike(a, b)
    ensures forall i | 0 <= i < |a| :: a[i].kind == b[i].kind && a[i].value == b[i].value && a[i].style == b[i].style
    ensures forall h, kind :: YamlMoves.Is(a, h, kind) == YamlMoves.Is(b, h, kind)
  {
    forall i | 0 <= i < |a| ensures a[i].kind == b[i].kind && a[i].value == b[i].value && a[i].style == b[i].style {
      assert Unplaced(a[i]) == Unplaced(b[i]);
    }
  }

  lemma SizesAlike(a: seq<Token>, b: seq<Token>)
    requires Alike(a, b)
    ensures |a| == |b|
  {
  }

  lemma NodeAlike(a: seq<Token>, b: seq<Token>, h: nat, states: seq<State>, tags: seq<YamlEvents.TagDirective>, block: bool, indentless: bool)
    requires Alike(a, b)
    ensures YamlMoves.NodeMove(a, h, states, tags, block, indentless) == YamlMoves.NodeMove(b, h, states, tags, block, indentless)
  {
    hide Lookup, Alike, YamlMoves.PropertiesAt, ResolveTag, YamlMoves.Started, YamlMoves.Is;
    KindsAlike(a, b);
    SizesAlike(a, b);
    TagAlike(a, b, h, tags);
  }

  lemma TagAlike(a: seq<Token>, b: seq<Token>, h: nat, tags: seq<YamlEvents.TagDirective>)
    requires Alike(a, b)
    ensures ResolveTag(tags, YamlMoves.PropertiesAt(a, h).2) == ResolveTag(tags, YamlMoves.PropertiesAt(b, h).2)
    ensures YamlMoves.PropertiesAt(a, h).0 == YamlMoves.PropertiesAt(b, h).0
    ensures YamlMoves.PropertiesAt(a, h).1 == YamlMoves.PropertiesAt(b, h).1
  {
    hide Lookup;
    KindsAlike(a, b);
    var t, u := YamlMoves.PropertiesAt(a, h).2, YamlMoves.PropertiesAt(b, h).2;
    assert t.None? <==> u.None?;
    assert t.Some? ==> Unplaced(t.value) == Unplaced(u.value);
  }

  lemma OrEmptyAlike(a: seq<Token>, b: seq<Token>, h: nat, states: seq<State>, tags: seq<YamlEvents.TagDirective>, empty: bool, cont: State,
                     block: bool, indentless: bool)
    requires Alike(a, b)
    ensures YamlMoves.NodeOrEmptyMove(a, h, states, tags, empty, cont, block, indentless)
         == YamlMoves.NodeOrEmptyMove(b, h, states, tags, empty, cont, block, indentless)
  {
    hide YamlMoves.NodeMove;
    NodeAlike(a, b, h, states + [cont], tags, block, indentless);
  }

  lemma {:induction false} DirectivesAlike(a: seq<Token>, b: seq<Token>, h: nat, d: Declarations)
    requires Alike(a, b)
    ensures DirectivesFrom(a, h, d) == DirectivesFrom(b, h, d)
    decreases |a| - h
  {
    hide Declared;
    if h < |a| {
      assert Unplaced(a[h]) == Unplaced(b[h]);
      assert Declare(a[h], d) == Declare(b[h], d);
      if Declare(a[h], d).Some? { DirectivesAlike(a, b, h + 1, Declare(a[h], d).value); }
    }
  }

  lemma {:induction false} EndsAlike(a: seq<Token>, b: seq<Token>, h: nat)
    requires Alike(a, b) && h <= |a|
    ensures YamlMoves.PastDocumentEnds(a, h) == YamlMoves.PastDocumentEnds(b, h)
    decreases |a| - h
  {
    if h < |a| {
      assert Unplaced(a[h]) == Unplaced(b[h]);
      EndsAlike(a, b, h + 1);
    }
  }

  lemma StartAlike(a: seq<Token>, b: seq<Token>, c: YamlMoves.Config, implicit: bool)
    requires Alike(a, b)
    ensures YamlMoves.DocumentStartMove(a, c, implicit) == YamlMoves.DocumentStartMove(b, c, implicit)
  {
    KindsAlike(a, b);
    hide Alike, DirectivesFrom, YamlMoves.PastDocumentEnds;
    if c.head <= |a| {
      EndsAlike(a, b, c.head);
      var h := if implicit then c.head else YamlMoves.PastDocumentEnds(a, c.head);
      DirectivesAlike(a, b, h, Declarations(None, [], c.tags));
    }
  }

  /** The block productions. */
  lemma BlockAlike(a: seq<Token>, b: seq<Token>, c: YamlMoves.Config, first: bool)
    requires Alike(a, b)
    ensures YamlMoves.BlockSequenceMove(a, c, first) == YamlMoves.BlockSequenceMove(b, c, first)
    ensures YamlMoves.IndentlessSequenceMove(a, c) == YamlMoves.IndentlessSequenceMove(b, c)
    ensures YamlMoves.BlockKeyMove(a, c, first) == YamlMoves.BlockKeyMove(b, c, first)
    ensures YamlMoves.BlockValueMove(a, c) == YamlMoves.BlockValueMove(b, c)
  {
    KindsAlike(a, b);
    EmptyOrNode(a, b);
    hide Alike, YamlMoves.NodeOrEmptyMove, YamlMoves.Is;
  }

  lemma EmptyOrNode(a: seq<Token>, b: seq<Token>)
    requires Alike(a, b)
    ensures forall h, states, tags, empty, cont, block, indentless ::
              (YamlMoves.NodeOrEmptyMove(a, h, states, tags, empty, cont, block, indentless)
               == YamlMoves.NodeOrEmptyMove(b, h, states, tags, empty, cont, block, indentless))
  {
    hide Alike, YamlMoves.NodeOrEmptyMove;
    forall h, states, tags, empty, cont, block, indentless
      ensures YamlMoves.NodeOrEmptyMove(a, h, states, tags, empty, cont, block, indentless)
           == YamlMoves.NodeOrEmptyMove(b, h, states, tags, empty, cont, block, indentless)
    {
      OrEmptyAlike(a, b, h, states, tags, empty, cont, block, indentless);
    }
  }

  /** The flow productions. */
  lemma FlowSequenceAlike(a: seq<Token>, b: seq<Token>, c: YamlMoves.Config, first: bool)
    requires Alike(a, b)
    ensures YamlMoves.FlowSequenceMove(a, c, first) == YamlMoves.FlowSequenceMove(b, c, first)
  {
    KindsAlike(a, b);
    EmptyOrNode(a, b);
    hide Alike, YamlMoves.NodeOrEmptyMove, YamlMoves.Is;
  }

  lemma PairAlike(a: seq<Token>, b: seq<Token>, c: YamlMoves.Config)
    requires Alike(a, b)
    ensures YamlMoves.PairKeyMove(a, c) == YamlMoves.PairKeyMove(b, c)
    ensures YamlMoves.PairValueMove(a, c) == YamlMoves.PairValueMove(b, c)
    ensures YamlMoves.PairEndMove(a, c) == YamlMoves.PairEndMove(b, c)
  {
    KindsAlike(a, b);
    EmptyOrNode(a, b);
    hide Alike, YamlMoves.NodeOrEmptyMove, YamlMoves.Is;
  }

  lemma EntryAtAlike(a: seq<Token>, b: seq<Token>, c: YamlMoves.Config, first: bool)
    requires Alike(a, b)
    ensures YamlMoves.FlowEntryAt(a, c, first, FlowMappingEndToken) == YamlMoves.FlowEntryAt(b, c, first, FlowMappingEndToken)
  {
    KindsAlike(a, b);
    hide Alike, YamlMoves.Is;
  }

  lemma FlowKeyAlike(a: seq<Token>, b: seq<Token>, c: YamlMoves.Config, first: bool)
    requires Alike(a, b)
    ensures YamlMoves.FlowKeyMove(a, c, first) == YamlMoves.FlowKeyMove(b, c, first)
  {
    hide YamlMoves.NodeOrEmptyMove, YamlMoves.Is, YamlMoves.FlowEntryAt;
    EntryAtAlike(a, b, c, first);
    KindsAlike(a, b);
    EmptyOrNode(a, b);
    assert |a| == |b|;
    hide Alike;
  }

  lemma FlowValueAlike(a: seq<Token>, b: seq<Token>, c: YamlMoves.Config, empty: bool)
    requires Alike(a, b)
    ensures YamlMoves.FlowValueMove(a, c, empty) == YamlMoves.FlowValueMove(b, c, empty)
  {
    KindsAlike(a, b);
    EmptyOrNode(a, b);
    hide Alike, YamlMoves.NodeOrEmptyMove, YamlMoves.Is;
  }

  /** What stands around the root. */
  lemma AroundAlike(a: seq<Token>, b: seq<Token>, c: YamlMoves.Config)
    requires Alike(a, b)
    ensures YamlMoves.DocumentContentMove(a, c) == YamlMoves.DocumentContentMove(b, c)
    ensures YamlMoves.DocumentEndMove(a, c) == YamlMoves.DocumentEndMove(b, c)
    ensures YamlMoves.Is(a, c.head, StreamStartToken) == YamlMoves.Is(b, c.head, StreamStartToken)
  {
    KindsAlike(a, b);
    NodeAlike(a, b, c.head, c.states, c.tags, true, false);
    hide Alike, YamlMoves.NodeMove, YamlMoves.Is;
  }

  lemma NextAlike(a: seq<Token>, b: seq<Token>, c: YamlMoves.Config)
    requires Alike(a, b)
    ensures YamlMoves.Next(a, c) == YamlMoves.Next(b, c)
  {
    hide Alike, YamlMoves.Is, YamlMoves.DocumentStartMove, YamlMoves.NodeMove, YamlMoves.BlockSequenceMove, YamlMoves.IndentlessSequenceMove,
      YamlMoves.BlockKeyMove, YamlMoves.BlockValueMove, YamlMoves.FlowSequenceMove, YamlMoves.PairKeyMove, YamlMoves.PairValueMove,
      YamlMoves.FlowKeyMove, YamlMoves.FlowValueMove, YamlMoves.DocumentContentMove, YamlMoves.DocumentEndMove, YamlMoves.PairEndMove;
    match c.state {
      case ImplicitDocumentStartState => StartAlike(a, b, c, true);
      case DocumentStartState => StartAlike(a, b, c, false);
      case BlockNodeState => NodeAlike(a, b, c.head, c.states, c.tags, true, false);
      case BlockSequenceFirstEntryState => BlockAlike(a, b, c, true);
      case BlockSequenceEntryState => BlockAlike(a, b, c, false);
      case IndentlessSequenceEntryState => BlockAlike(a, b, c, false);
      case BlockMappingFirstKeyState => BlockAlike(a, b, c, true);
      case BlockMappingKeyState => BlockAlike(a, b, c, false);
      case BlockMappingValueState => BlockAlike(a, b, c, false);
      case FlowSequenceFirstEntryState => FlowSequenceAlike(a, b, c, true);
      case FlowSequenceEntryState => FlowSequenceAlike(a, b, c, false);
      case FlowSequenceEntryMappingKeyState => PairAlike(a, b, c);
      case FlowSequenceEntryMappingValueState => PairAlike(a, b, c);
      case FlowSequenceEntryMappingEndState => PairAlike(a, b, c);
      case FlowMappingFirstKeyState => FlowKeyAlike(a, b, c, true);
      case FlowMappingKeyState => FlowKeyAlike(a, b, c, false);
      case FlowMappingValueState => FlowValueAlike(a, b, c, false);
      case FlowMappingEmptyValueState => FlowValueAlike(a, b, c, true);
      case _ => AroundAlike(a, b, c);
    }
  }

  /** Tokens in other places yield the same events. */
  lemma {:induction false} YieldsAlike(a: seq<Token>, b: seq<Token>, c: YamlMoves.Config, events: seq<YamlEvents.Event>, end: YamlMoves.Config)
    requires Alike(a, b) && YamlSpelling.Yields(a, c, events, end)
    ensures YamlSpelling.Yields(b, c, events, end)
    decreases |events|
  {
    hide YamlMoves.Next, Alike;
    if events != [] {
      NextAlike(a, b, c);
      YieldsAlike(a, b, YamlMoves.Next(a, c).next, events[1..], end);
    }
  }

  //
  // The stream ends once.
  //

  lemma PropsNoEnd(p: Properties)
    ensures NoEnd(PropertyTokens(p))
  {
  }

  lemma {:induction false} SpelledNoEnd(x: Source)
    ensures NoEnd(Spelled(x))
    decreases x, 1
  {
    hide PropertyTokens, FlowItems, BlockItems, FlowEntries, BlockEntries, EntryTokens;
    match x {
      case Items(p, form, items) =>
        PropsNoEnd(p);
        ItemsNoEnd(items, true, form.InFlow? && form.comma);
      case Pairs(p, form, entries) =>
        PropsNoEnd(p);
        EntriesNoEnd(entries, true, form.InFlow? && form.comma);
      case Single(e) => EntryNoEnd(e);
      case Bare(p) => PropsNoEnd(p);
      case Text(p, _, _) => PropsNoEnd(p);
      case _ =>
    }
  }

  lemma {:induction false} EntryNoEnd(e: Entry)
    ensures NoEnd(EntryTokens(e))
    decreases e, 1
  {
    hide Spelled;
    SpelledNoEnd(e.key);
    SpelledNoEnd(e.value);
  }

  lemma {:induction false} ItemsNoEnd(xs: seq<Source>, first: bool, flag: bool)
    ensures NoEnd(FlowItems(xs, first, flag)) && NoEnd(BlockItems(xs, true)) && NoEnd(BlockItems(xs, false))
    decreases xs, 0
  {
    hide Spelled;
    if xs != [] {
      SpelledNoEnd(xs[0]);
      ItemsNoEnd(xs[1..], false, flag);
    }
  }

  lemma {:induction false} EntriesNoEnd(es: seq<Entry>, first: bool, comma: bool)
    ensures NoEnd(FlowEntries(es, first, comma)) && NoEnd(BlockEntries(es))
    decreases es, 0
  {
    hide EntryTokens;
    if es != [] {
      EntryNoEnd(es[0]);
      EntriesNoEnd(es[1..], false, comma);
    }
  }

  lemma {:induction false} DirectivesNoEnd(ds: seq<Token>, d: Declarations)
    requires DeclareAll(ds, d).Some?
    ensures NoEnd(ds)
    decreases |ds|
  {
    hide Declared;
    if ds != [] { DirectivesNoEnd(ds[1..], Declare(ds[0], d).value); }
  }

  lemma {:induction false} TimesNoEnd(n: nat, t: Token)
    requires !t.kind.StreamEndToken?
    ensures NoEnd(Times(n, t))
    decreases n
  {
    if n > 0 { TimesNoEnd(n - 1, t); }
  }

  lemma {:induction false} DocsEndOnce(docs: seq<DocSource>)
    requires forall i :: 0 <= i < |docs| ==> DeclareAll(docs[i].directives, UNDECLARED).Some?
    ensures var ts := SpelledDocs(docs); ts != [] && NoEnd(ts[..|ts| - 1]) && ts[|ts| - 1] == Plainly(StreamEndToken)
    decreases |docs|
  {
    hide Spelled, DeclareAll, Times, NoEnd, DocTokens;
    if docs == [] {
      assert [Plainly(StreamEndToken)][..0] == [];
      TimesNoEnd(0, Plainly(DocumentEndToken));
      assert Times(0, Plainly(DocumentEndToken)) == [] by { NoTimes(); }
    } else {
      var more := SpelledDocs(docs[1..]);
      DocsEndOnce(docs[1..]);
      FrontNoEnd(docs[0]);
      var front := DocTokens(docs[0]);
      assert SpelledDocs(docs) == front + more by { DocSpelled(docs); }
      assert (front + more)[..|front + more| - 1] == front + more[..|more| - 1];
      BothNoEnd(front, more[..|more| - 1]);
    }
  }

  lemma NoTimes()
    ensures Times(0, Plainly(DocumentEndToken)) == []
  {
  }

  lemma DocSpelled(docs: seq<DocSource>)
    requires docs != []
    ensures SpelledDocs(docs) == DocTokens(docs[0]) + SpelledDocs(docs[1..])
  {
    hide Header, Spelled, Times;
  }

  lemma BothNoEnd(a: seq<Token>, b: seq<Token>)
    requires NoEnd(a) && NoEnd(b)
    ensures NoEnd(a + b)
  {
  }

  lemma FrontNoEnd(doc: DocSource)
    requires DeclareAll(doc.directives, UNDECLARED).Some?
    ensures NoEnd(DocTokens(doc))
  {
    hide Spelled, DeclareAll, Times;
    DirectivesNoEnd(doc.directives, UNDECLARED);
    SpelledNoEnd(doc.root);
    TimesNoEnd(doc.ends, Plainly(DocumentEndToken));
    assert NoEnd(Header(doc));
    hide Header, NoEnd;
    BothNoEnd(Spelled(doc.root), Times(doc.ends, Plainly(DocumentEndToken)));
    BothNoEnd(Header(doc), Spelled(doc.root) + Times(doc.ends, Plainly(DocumentEndToken)));
  }

  lemma {:induction false} FetchAllWeaves(xs: seq<Lexeme>, n: nat)
    requires n <= |xs| && FetchAll(STARTED, true, xs[..n]).Some?
    ensures Woven(FetchAll(STARTED, true, xs[..n]).value.core.total, Streamed(xs[..n]))
    decreases n
  {
    hide FetchAll, Fetched, Woven;
    if n == 0 {
      assert xs[..0] == [];
      FetchAllNone(STARTED, true);
      StartWoven(xs);
      assert Streamed([]) == STARTED.total;
    } else {
      FetchAllSnoc(xs, n - 1);
      FetchAllWeaves(xs, n - 1);
      var e := FetchAll(STARTED, true, xs[..n - 1]).value;
      FetchWeaves(e.core, e.allowed, xs[n - 1], Streamed(xs[..n - 1]));
      StreamedSnoc(xs, n - 1);
    }
  }

  lemma {:induction false} WovenNoEnd(total: seq<Token>, own: seq<Token>)
    requires Woven(total, own) && NoEnd(total)
    ensures NoEnd(own)
    decreases |total|
  {
    if total != [] {
      var n := |total| - 1;
      if own != [] && own[|own| - 1] == total[n] && Woven(total[..n], own[..|own| - 1]) {
        WovenNoEnd(total[..n], own[..|own| - 1]);
      } else {
        WovenNoEnd(total[..n], own);
      }
    }
  }

  lemma {:induction false} OwnsAt(xs: seq<Lexeme>)
    ensures |Owns(xs)| == |xs| && forall i :: 0 <= i < |xs| ==> Owns(xs)[i] == Own(xs[i])
    decreases |xs|
  {
    hide Own;
    if xs != [] { OwnsAt(xs[..|xs| - 1]); }
  }

  /** Tokens that end once come from lexemes that end once. */
  lemma LexemesEndOnce(xs: seq<Lexeme>)
    requires FetchAll(STARTED, true, xs).Some?
    requires var ts := FetchAll(STARTED, true, xs).value.core.total;
      |ts| > 1 && NoEnd(ts[..|ts| - 1]) && ts[|ts| - 1].kind.StreamEndToken?
    ensures EndsOnce(xs)
  {
    hide FetchAll, Woven, Streamed, Own, NoEnd;
    var ts := FetchAll(STARTED, true, xs).value.core.total;
    assert xs[..|xs|] == xs;
    FetchAllWeaves(xs, |xs|);
    OwnEndsOnce(ts, Streamed(xs));
    OwnsEndOnce(xs);
  }

  lemma OwnEndsOnce(ts: seq<Token>, own: seq<Token>)
    requires Woven(ts, own) && |ts| > 1 && NoEnd(ts[..|ts| - 1]) && ts[|ts| - 1].kind.StreamEndToken?
    ensures own != [] && own[|own| - 1] == ts[|ts| - 1] && NoEnd(own[..|own| - 1])
  {
    hide NoEnd;
    var n := |ts| - 1;
    assert !Structural(ts[n]);
    WovenNoEnd(ts[..n], own[..|own| - 1]);
  }

  lemma OwnsEndOnce(xs: seq<Lexeme>)
    requires var own := Streamed(xs); own[|own| - 1].kind.StreamEndToken? && NoEnd(own[..|own| - 1])
    ensures EndsOnce(xs)
  {
    var own := Streamed(xs);
    OwnsAt(xs);
    assert xs != [];
    forall i | 0 <= i < |xs| ensures xs[i].kind.AtStreamEnd? <==> i == |xs| - 1 {
      assert own[i + 1] == Own(xs[i]);
      if i < |xs| - 1 { assert own[..|own| - 1][i + 1] == own[i + 1]; }
    }
  }

  //
  // Loading.
  //

  /** The scanner gives exactly the tokens that the documents are spelled with. */
  method Scan(lexemes: seq<Lexeme>, ghost docs: seq<DocSource>) returns (tokens: seq<Token>)
    requires Forward(lexemes) && StreamWritten(docs, lexemes, true) && GoodDocs(docs, true)
    ensures Alike(SpelledStream(docs), tokens)
  {
    hide FetchAll, StreamWritten, GoodDoc, SpelledDocs, DeclareAll;
    var a := StreamScans(docs, lexemes);
    assert forall i :: 0 <= i < |docs| ==> DeclareAll(docs[i].directives, UNDECLARED).Some? by { Headed(docs, true); }
    DocsEndOnce(docs);
    SpelledEnds(docs, a.core.total);
    LexemesEndOnce(lexemes);
    var scanner := new YamlScanner.Scanner(lexemes);
    var ok;
    tokens, ok := scanner.ScanAll();
    assert ok;
  }

  lemma Headed(docs: seq<DocSource>, first: bool)
    requires GoodDocs(docs, first)
    ensures forall i :: 0 <= i < |docs| ==> DeclareAll(docs[i].directives, UNDECLARED).Some?
  {
    forall i | 0 <= i < |docs| ensures DeclareAll(docs[i].directives, UNDECLARED).Some? { assert GoodDoc(docs[i], first && i == 0); }
  }

  lemma SpelledEnds(docs: seq<DocSource>, total: seq<Token>)
    requires AllUnplaced(total) == SpelledStream(docs)
    requires var ts := SpelledDocs(docs); ts != [] && NoEnd(ts[..|ts| - 1]) && ts[|ts| - 1] == Plainly(StreamEndToken)
    ensures |total| > 1 && NoEnd(total[..|total| - 1]) && total[|total| - 1].kind.StreamEndToken? && Alike(SpelledStream(docs), total)
  {
    hide SpelledDocs;
    var all, ts := SpelledStream(docs), SpelledDocs(docs);
    assert |total| == |all| == |ts| + 1;
    forall i | 0 <= i < |total| ensures Unplaced(total[i]) == all[i] && Unplaced(all[i]) == all[i] {
      assert AllUnplaced(total)[i] == Unplaced(total[i]);
    }
    forall i | 0 <= i < |total| - 1 ensures !total[i].kind.StreamEndToken? {
      assert Unplaced(total[i]).kind == total[i].kind;
      if i > 0 { assert all[i] == ts[i - 1] == ts[..|ts| - 1][i - 1]; }
    }
    assert all[|total| - 1] == ts[|ts| - 1];
  }

  /** However documents are laid out, loading them gives the events of their trees. */
  method Load(lexemes: seq<Lexeme>, ghost docs: seq<DocSource>) returns (parser: YamlParser.Parser)
    requires Forward(lexemes) && StreamWritten(docs, lexemes, true) && GoodDocs(docs, true)
    ensures forall i :: 0 <= i < |docs| ==> DeclareAll(docs[i].directives, UNDECLARED).Some?
    ensures fresh(parser) && parser.Valid() && parser.error.None? && parser.state.EndState?
    ensures parser.emitted == YamlEvents.StreamEvents(DocsOf(docs))
  {
    hide YamlMoves.Next, YamlParser.Parser.Valid, YamlSpelling.Yields, GoodDocs, SpelledStream, YamlEvents.StreamEvents, DocsOf, StreamWritten, Alike;
    var tokens := Scan(lexemes, docs);
    ghost var spelled := SpelledStream(docs);
    YamlSpelling.StreamYields(docs);
    ghost var end := YamlMoves.Config(|spelled|, EndState, [], []);
    YieldsAlike(spelled, tokens, YamlParseBack.BEGIN, YamlEvents.StreamEvents(DocsOf(docs)), end);
    var ok;
    parser, ok := YamlParseBack.ParseTokens(tokens);
    YamlParseBack.YieldsUnique(tokens, YamlParseBack.BEGIN, parser.emitted, parser.Here(), YamlEvents.StreamEvents(DocsOf(docs)), end);
  }

  //
  // Trees, laid out and loaded.
  //

  /** No block collection is empty. */
  ghost predicate Populated(t: YamlEvents.Tree) {
    match t
    case Leaf(_) => true
    case Sequence(o, items) =>
      (o.SequenceStart? && o.collectionStyle.Block? ==> items != []) && forall i | 0 <= i < |items| :: Populated(items[i])
    case Mapping(o, items) =>
      (o.MappingStart? && o.collectionStyle.Block? ==> items != []) && forall i | 0 <= i < |items| :: Populated(items[i])
  }

  lemma {:induction false} SourceFilled(t: YamlEvents.Tree, flow: bool)
    requires Populated(t) && Spellable(t, flow)
    ensures Filled(SourceOf(t))
    decreases t, 0
  {
    match t {
      case Leaf(_) =>
      case Sequence(o, items) => SourcesFilled(items, flow || o.collectionStyle.Flow?);
      case Mapping(o, items) => EntriesFilled(items, flow || o.collectionStyle.Flow?);
    }
  }

  lemma {:induction false} SourcesFilled(ts: seq<YamlEvents.Tree>, flow: bool)
    requires forall i | 0 <= i < |ts| :: Populated(ts[i]) && Spellable(ts[i], flow)
    ensures |SourcesOf(ts)| == |ts| && forall i :: 0 <= i < |ts| ==> Filled(SourcesOf(ts)[i])
    decreases ts, 0
  {
    hide Populated, Spellable, Filled, SourceOf;
    if ts != [] {
      SourceFilled(ts[0], flow);
      SourcesFilled(ts[1..], flow);
    }
  }

  lemma {:induction false} EntriesFilled(ts: seq<YamlEvents.Tree>, flow: bool)
    requires forall i | 0 <= i < |ts| :: Populated(ts[i]) && Spellable(ts[i], flow)
    requires |ts| % 2 == 0
    ensures 2 * |EntriesOf(ts)| == |ts|
    ensures forall i :: 0 <= i < |EntriesOf(ts)| ==> Filled(EntriesOf(ts)[i].key) && Filled(EntriesOf(ts)[i].value)
    decreases ts, 0
  {
    hide Populated, Spellable, Filled, SourceOf;
    if ts != [] {
      SourceFilled(ts[0], flow);
      SourceFilled(ts[1], flow);
      EntriesFilled(ts[2..], flow);
    }
  }

  lemma {:induction false} TagTokensUnplaced(ds: seq<YamlEvents.TagDirective>)
    ensures forall i | 0 <= i < |TagTokensOf(ds)| :: Unplaced(TagTokensOf(ds)[i]) == TagTokensOf(ds)[i]
    decreases |ds|
  {
    if ds != [] { TagTokensUnplaced(ds[1..]); }
  }

  lemma DocLayable(d: YamlEvents.Document)
    requires SpellableDoc(d) && Populated(d.root)
    ensures Filled(DocSourceOf(d).root) && AllUnplaced(DocSourceOf(d).directives) == DocSourceOf(d).directives
  {
    hide Populated, Spellable, Filled, SourceOf;
    SourceFilled(d.root, false);
    TagTokensUnplaced(d.start.tagDirectives);
  }

  lemma {:induction false} DocsLayable(docs: seq<YamlEvents.Document>)
    requires forall i | 0 <= i < |docs| :: SpellableDoc(docs[i]) && Populated(docs[i].root)
    ensures Layable(DocSourcesOf(docs))
    decreases |docs|
  {
    hide Populated, SpellableDoc, Filled, AllUnplaced, DocSourceOf;
    if docs != [] {
      DocLayable(docs[0]);
      DocsLayable(docs[1..]);
      var more := DocSourcesOf(docs[1..]);
      forall i | 0 <= i < |DocSourcesOf(docs)|
        ensures Filled(DocSourcesOf(docs)[i].root) && AllUnplaced(DocSourcesOf(docs)[i].directives) == DocSourcesOf(docs)[i].directives
      {
        if i > 0 { assert DocSourcesOf(docs)[i] == more[i - 1]; }
      }
    }
  }

  /** All documents without empty block collections have a layout that is loaded to exactly their events. */
  method LayAndLoad(docs: seq<YamlEvents.Document>) returns (lexemes: seq<Lexeme>, parser: YamlParser.Parser)
    requires forall i | 0 <= i < |docs| :: SpellableDoc(docs[i]) && Populated(docs[i].root)
    ensures Forward(lexemes) && StreamWritten(DocSourcesOf(docs), lexemes, true)
    ensures fresh(parser) && parser.Valid() && parser.error.None? && parser.state.EndState?
    ensures parser.emitted == YamlEvents.StreamEvents(docs)
  {
    hide YamlParser.Parser.Valid, SpellableDoc, Populated, YamlEvents.StreamEvents, GoodDocs, Layable, StreamWritten, Forward, Puttable, StackedStream;
    var sources := DocSourcesOf(docs);
    DocsSpelled(docs, true);
    DocsLayable(docs);
    DocsLaid(sources, 0, true);
    lexemes := StreamLexemes(sources, 0);
    LastEnds(sources, 0);
    StackedForward(lexemes, 0);
    parser := Load(lexemes, sources);
  }
}
