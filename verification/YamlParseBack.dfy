/** The parser on the tokens of documents: it gives the trees back, event by event. */
module YamlParseBack {
  import opened YamlEvents
  import opened YamlTokens
  import opened YamlMoves
  import opened YamlSource
  import opened YamlWriting
  import opened YamlSpelling
  import opened YamlParser

  const BEGIN := Config(0, StreamStartState, [], [])

  /** The moves lead from the start of the stream to its end. */
  ghost predicate Accepted(tokens: seq<Token>) {
    exists events, end :: Yields(tokens, BEGIN, events, end) && end.state.EndState?
  }

  /** One more event. */
  lemma YieldsMore(tokens: seq<Token>, c: Config, events: seq<Event>, mid: Config, m: Move)
    requires Yields(tokens, c, events, mid) && Next(tokens, mid) == m && m.Move?
    ensures Yields(tokens, c, events + [m.event], m.next)
  {
    hide Next;
    YieldsOne(tokens, mid, m.event, m.next);
    YieldsThen(tokens, c, events, mid, [m.event], m.next);
  }

  /** A run that has come to a dead end does not reach the end of the stream on any other way. */
  lemma {:induction false} DeadEnd(tokens: seq<Token>, c: Config, xs: seq<Event>, dead: Config, ys: seq<Event>, end: Config)
    requires Yields(tokens, c, xs, dead) && Next(tokens, dead) == Stuck && !dead.state.EndState?
    requires Yields(tokens, c, ys, end)
    ensures !end.state.EndState?
    decreases |xs|
  {
    hide Next;
    if xs == [] {
      assert ys == [];
    } else if ys == [] {
      EndIsStuck(tokens, c);
    } else {
      DeadEnd(tokens, Next(tokens, c).next, xs[1..], dead, ys[1..], end);
    }
  }

  lemma EndIsStuck(tokens: seq<Token>, c: Config)
    ensures c.state.EndState? ==> Next(tokens, c) == Stuck
  {
  }

  /** Parsing any tokens succeeds exactly when the moves reach the end of the stream, and yields their events. */
  method ParseTokens(tokens: seq<Token>) returns (parser: Parser, ok: bool)
    ensures fresh(parser) && parser.Valid() && parser.tokens == tokens
    ensures ok <==> Accepted(tokens)
    ensures ok <==> parser.error.None?
    ensures ok ==> Yields(tokens, BEGIN, parser.emitted, parser.Here()) && parser.state.EndState?
  {
    hide Next, Parser.Valid, Measure, Yields;
    parser := new Parser(tokens);
    NothingYields(tokens, BEGIN);
    while !parser.state.EndState?
      invariant fresh(parser) && parser.Valid() && parser.error.None? && parser.tokens == tokens
      invariant Yields(tokens, BEGIN, parser.emitted, parser.Here())
      decreases Measure(tokens, parser.View())
    {
      ghost var before, events := parser.Here(), parser.emitted;
      var r := parser.Parse();
      if r.Failed? {
        forall ys, end | Yields(tokens, BEGIN, ys, end) ensures !end.state.EndState? {
          DeadEnd(tokens, BEGIN, events, before, ys, end);
        }
        return parser, false;
      }
      YieldsMore(tokens, BEGIN, events, before, Next(tokens, before));
    }
    ok := true;
  }

  lemma {:induction false} YieldsUnique(tokens: seq<Token>, c: Config, xs: seq<Event>, d: Config, ys: seq<Event>, e: Config)
    requires Yields(tokens, c, xs, d) && Yields(tokens, c, ys, e) && d.state.EndState? && e.state.EndState?
    ensures xs == ys && d == e
    decreases |xs|
  {
    hide Next;
    EndIsStuck(tokens, c);
    if xs != [] && ys != [] {
      YieldsUnique(tokens, Next(tokens, c).next, xs[1..], d, ys[1..], e);
      assert xs == [xs[0]] + xs[1..] && ys == [ys[0]] + ys[1..];
    }
  }

  /** Parsing documents, however they are written, succeeds and produces exactly their events. */
  method ParseSpelled(docs: seq<DocSource>) returns (parser: Parser)
    requires GoodDocs(docs, true)
    ensures forall i :: 0 <= i < |docs| ==> DeclareAll(docs[i].directives, UNDECLARED).Some?
    ensures fresh(parser) && parser.Valid() && parser.error.None? && parser.state.EndState?
    ensures parser.tokens == SpelledStream(docs) && parser.emitted == StreamEvents(DocsOf(docs))
  {
    hide Next, Parser.Valid, Yields, GoodDocs, SpelledStream, StreamEvents, DocsOf;
    var tokens := SpelledStream(docs);
    StreamYields(docs);
    var ok;
    parser, ok := ParseTokens(tokens);
    YieldsUnique(tokens, BEGIN, parser.emitted, parser.Here(), StreamEvents(DocsOf(docs)), Config(|tokens|, EndState, [], []));
  }

  /** Any spellable documents have tokens that are parsed to exactly their events. */
  method ParseWritten(docs: seq<Document>) returns (parser: Parser)
    requires forall i | 0 <= i < |docs| :: SpellableDoc(docs[i])
    ensures fresh(parser) && parser.Valid() && parser.error.None? && parser.state.EndState?
    ensures parser.tokens == SpelledStream(DocSourcesOf(docs)) && parser.emitted == StreamEvents(docs)
  {
    hide Parser.Valid, SpellableDoc, SpelledStream, StreamEvents, GoodDocs;
    DocsSpelled(docs, true);
    parser := ParseSpelled(DocSourcesOf(docs));
  }
}
