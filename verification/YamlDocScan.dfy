/** A stream of documents, however laid out, is fetched as the tokens it spells. */
module YamlDocScan {
  import opened Wrappers
  import opened YamlTokens
  import opened TokenQueue
  import opened YamlScanCore
  import opened YamlFetch
  import opened YamlSource
  import opened YamlEager
  import opened YamlLayout
  import opened YamlFlowScan
  import opened YamlBlockScan

  const BASE: seq<int> := [-1]

  /** Between documents: once every block is closed, `said` are the tokens. */
  ghost predicate Between(c: Core, said: seq<Token>) { Pending(BASE, c, said) && Quiet(c) }

  /** Closing some blocks leaves the same pending. */
  lemma ShutPends(c: Core, said: seq<Token>, column: int, mark: Mark)
    requires Pending(BASE, c, said) && column >= -1
    ensures Pending(BASE, Shut(c, column, mark), said) && Shut(c, column, mark).keys == c.keys
    ensures column == -1 ==> Levels(Shut(c, column, mark)) == BASE
  {
    hide IndentsOk, AllUnplaced, Deeper;
    assert Levels(c)[0] == -1;
    NotAllDeeper(Levels(c), column);
    var n := Deeper(Levels(c), column);
    if column == -1 { PendingDepth(BASE, c, said, -1); }
    var k := |c.indents| - n;
    ShutIndents(c, Levels(c)[..k + 1], k);
    var ends := seq(n, _ => PlainToken(BlockEndToken, mark));
    UnplacedConcat(c.total, ends);
    UnplacedEnds(n, mark);
    assert Ends(n) + Ends(k) == Ends(n + k);
    var d := Shut(c, column, mark);
    assert Levels(d) == Levels(c)[..k + 1] && d.total == c.total + ends;
    assert AllUnplaced(d.total) + Ends(k) == AllUnplaced(c.total) + Ends(n + k);
    assert Levels(d)[..1] == BASE;
  }

  /** The blocks are closed and the key dropped. */
  lemma ResetSettles(c: Core, said: seq<Token>, column: int, mark: Mark, at: Mark)
    requires Between(c, said) && column >= -1
    ensures !Overdue(c.keys, mark)
    ensures var r := Reset(Shut(Refreshed(c, mark), column, mark), at);
      r.Some? && Settled(BASE, r.value, said) && |r.value.keys| == 1 && !r.value.keys[0].possible
  {
    hide Shut, AllUnplaced, IndentsOk;
    var f := Refreshed(c, mark);
    assert f == c.(keys := [Fresh(c.keys[0], mark)]);
    assert Levels(f) == Levels(c);
    ShutPends(f, said, column, mark);
    var d := Shut(f, column, mark);
    ShutPends(d, said, -1, at);
    var e := Shut(d, -1, at);
    assert Ends(0) == [] && AllUnplaced(e.total) + [] == AllUnplaced(e.total);
  }

  lemma IndicatorFetch(c: Core, said: seq<Token>, allowed: bool, x: Lexeme) returns (m: After)
    requires Between(c, said) && x.kind.AtDocumentIndicator?
    ensures Fetched(c, allowed, x) == Some(m) && !m.allowed && |m.core.keys| == 1 && !m.core.keys[0].possible
    ensures Settled(BASE, m.core, said + [Unplaced(x.token)])
  {
    hide Shut, Overdue, Reset, IndentsOk;
    ResetSettles(c, said, x.token.start.column, x.token.start, x.token.start);
    m := Fetched(c, allowed, x).value;
    UnplacedSnoc(Reset(Shut(Refreshed(c, x.token.start), x.token.start.column, x.token.start), x.token.start).value.total, x.token);
  }

  lemma DirectiveFetch(c: Core, said: seq<Token>, allowed: bool, x: Lexeme) returns (m: After)
    requires Between(c, said) && x.kind.AtDirective? && x.ok
    ensures Fetched(c, allowed, x) == Some(m) && !m.allowed && |m.core.keys| == 1 && !m.core.keys[0].possible
    ensures Settled(BASE, m.core, said + [Unplaced(x.token)])
  {
    hide Shut, Overdue, Reset, IndentsOk;
    ResetSettles(c, said, x.token.start.column, x.token.start, x.token.start);
    m := Fetched(c, allowed, x).value;
    UnplacedSnoc(Reset(Shut(Refreshed(c, x.token.start), x.token.start.column, x.token.start), x.token.start).value.total, x.token);
  }

  lemma EndFetch(c: Core, said: seq<Token>, allowed: bool, x: Lexeme) returns (m: After)
    requires Between(c, said) && x.kind.AtStreamEnd?
    ensures Fetched(c, allowed, x) == Some(m) && AllUnplaced(m.core.total) == said + [Plainly(StreamEndToken)]
    ensures m.core.flowLevel == 0 && |m.core.keys| == 1 && !m.core.keys[0].possible
  {
    hide Shut, Overdue, Reset, IndentsOk;
    var at := EndMark(x.token.start);
    ResetSettles(c, said, x.token.start.column, x.token.start, at);
    m := Fetched(c, allowed, x).value;
    UnplacedSnoc(Reset(Shut(Refreshed(c, x.token.start), x.token.start.column, x.token.start), at).value.total, PlainToken(StreamEndToken, at));
  }

  lemma SettledBetween(c: Core, said: seq<Token>)
    requires Settled(BASE, c, said) && |c.keys| == 1 && !c.keys[0].possible
    ensures Between(c, said)
  {
    hide IndentsOk;
    SettledPends(BASE, c, said);
  }

  lemma {:induction false} DirectivesRun(ds: seq<Token>, ls: seq<Lexeme>, c: Core, allowed: bool, said: seq<Token>) returns (a: After)
    requires Between(c, said) && DirectivesWritten(ls, ds)
    ensures FetchAll(c, allowed, ls) == Some(a) && Between(a.core, said + ds)
    decreases |ds|
  {
    hide Fetched, FetchAll, Settled, Pending;
    if ls == [] {
      FetchAllNone(c, allowed);
      a := After(c, allowed);
      assert said + ds == said;
      return;
    }
    assert ls == [ls[0]] + ls[1..] && ds == [ds[0]] + ds[1..];
    var m := DirectiveFetch(c, said, allowed, ls[0]);
    SettledBetween(m.core, said + [ds[0]]);
    FetchAllCons(c, allowed, ls[0], ls[1..]);
    a := DirectivesRun(ds[1..], ls[1..], m.core, m.allowed, said + [ds[0]]);
    assert said + [ds[0]] + ds[1..] == said + ds;
  }

  lemma {:induction false} EndsRun(n: nat, ls: seq<Lexeme>, c: Core, allowed: bool, said: seq<Token>) returns (a: After)
    requires Between(c, said) && Indicates(ls, n, DocumentEndToken)
    ensures FetchAll(c, allowed, ls) == Some(a) && Between(a.core, said + Times(n, Plainly(DocumentEndToken)))
    decreases n
  {
    hide Fetched, FetchAll, Settled, Pending;
    if n == 0 {
      FetchAllNone(c, allowed);
      a := After(c, allowed);
      assert said + [] == said;
      return;
    }
    var end := Plainly(DocumentEndToken);
    assert ls == [ls[0]] + ls[1..];
    var m := IndicatorFetch(c, said, allowed, ls[0]);
    SettledBetween(m.core, said + [end]);
    FetchAllCons(c, allowed, ls[0], ls[1..]);
    a := EndsRun(n - 1, ls[1..], m.core, m.allowed, said + [end]);
    assert said + [end] + Times(n - 1, end) == said + Times(n, end);
  }

  /** The directives and the start of a document. */
  lemma HeaderRun(doc: DocSource, ls: seq<Lexeme>, h: nat, k: nat, c: Core, allowed: bool, said: seq<Token>) returns (a: After)
    requires Between(c, said) && DocAt(doc, ls, h, k)
    requires !doc.explicit ==> Settled(BASE, c, said) && !c.keys[0].possible && allowed
    ensures FetchAll(c, allowed, ls[..h]) == Some(a) && Settled(BASE, a.core, said + Header(doc))
    ensures |a.core.keys| == 1 && !a.core.keys[0].possible && BlockWritten(doc.root, ls[h..k], -1, a.allowed)
  {
    hide Fetched, FetchAll, Settled, Pending, BlockWritten, Between;
    if doc.explicit {
      var ds, start := ls[..h - 1], ls[h - 1];
      assert ls[..h] == ds + [start];
      var m := DirectivesRun(doc.directives, ds, c, allowed, said);
      a := IndicatorFetch(m.core, said + doc.directives, m.allowed, start);
      assert Unplaced(start.token) == Plainly(DocumentStartToken) by { assert [start][0] == start; }
      FetchAllOne(m.core, m.allowed, start);
      FetchAllThen(c, allowed, ds, m, [start], ls[..h]);
      assert said + doc.directives + [Plainly(DocumentStartToken)] == said + Header(doc);
    } else {
      BetweenOne(c, said);
      FetchAllNone(c, allowed);
      a := After(c, allowed);
      assert ls[..0] == [] && said + Header(doc) == said;
    }
  }

  lemma BetweenOne(c: Core, said: seq<Token>)
    requires Between(c, said)
    ensures |c.keys| == 1
  {
  }

  function DocTokens(doc: DocSource): seq<Token> {
    Header(doc) + (Spelled(doc.root) + Times(doc.ends, Plainly(DocumentEndToken)))
  }

  lemma DocRun(doc: DocSource, ls: seq<Lexeme>, c: Core, allowed: bool, said: seq<Token>) returns (a: After)
    requires Between(c, said) && DocWritten(doc, ls)
    requires !doc.explicit ==> Settled(BASE, c, said) && !c.keys[0].possible && allowed
    ensures FetchAll(c, allowed, ls) == Some(a) && Between(a.core, said + DocTokens(doc))
  {
    hide Fetched, FetchAll, Settled, Pending, BlockWritten, Indicates, DirectivesWritten;
    var h: nat, k: nat :| DocAt(doc, ls, h, k);
    assert ls == ls[..h] + (ls[h..k] + ls[k..]);
    var m := HeaderRun(doc, ls, h, k, c, allowed, said);
    var said1 := said + Header(doc);
    SettledOutside(BASE, m.core, said1);
    var n := BlockRun(doc.root, ls[h..k], BASE, m.core, m.allowed, said1);
    a := EndsRun(doc.ends, ls[k..], n.core, n.allowed, said1 + Spelled(doc.root));
    ThreeRun(c, allowed, ls[..h], m, ls[h..k], n, ls[k..], ls);
    DocSaid(doc, said);
  }

  lemma DocSaid(doc: DocSource, said: seq<Token>)
    ensures said + Header(doc) + Spelled(doc.root) + Times(doc.ends, Plainly(DocumentEndToken)) == said + DocTokens(doc)
  {
    hide Header, Spelled;
  }

  lemma {:induction false} DocsRun(docs: seq<DocSource>, ls: seq<Lexeme>, first: bool, c: Core, allowed: bool, said: seq<Token>) returns (a: After)
    requires Between(c, said) && StreamWritten(docs, ls, first)
    requires first ==> Settled(BASE, c, said) && !c.keys[0].possible && allowed
    ensures FetchAll(c, allowed, ls) == Some(a) && AllUnplaced(a.core.total) == said + SpelledDocs(docs)
    ensures a.core.flowLevel == 0 && |a.core.keys| == 1 && !a.core.keys[0].possible
    decreases |docs|
  {
    hide Fetched, FetchAll, Settled, Pending, DocWritten, Spelled, Header;
    if docs == [] {
      assert ls == [ls[0]];
      a := EndFetch(c, said, allowed, ls[0]);
      FetchAllOne(c, allowed, ls[0]);
      return;
    }
    var k: nat :| k <= |ls| && DocWritten(docs[0], ls[..k]) && StreamWritten(docs[1..], ls[k..], false);
    assert ls == ls[..k] + ls[k..];
    var m := DocRun(docs[0], ls[..k], c, allowed, said);
    a := DocsRun(docs[1..], ls[k..], false, m.core, m.allowed, said + DocTokens(docs[0]));
    FetchAllThen(c, allowed, ls[..k], m, ls[k..], ls);
    DocsSaid(docs, said);
  }

  lemma DocsSaid(docs: seq<DocSource>, said: seq<Token>)
    requires docs != []
    ensures said + DocTokens(docs[0]) + SpelledDocs(docs[1..]) == said + SpelledDocs(docs)
  {
    hide Header, Spelled;
  }

  /** However documents are laid out, the tokens are those they spell: every block is opened and closed, every key marked. */
  lemma StreamScans(docs: seq<DocSource>, ls: seq<Lexeme>) returns (a: After)
    requires StreamWritten(docs, ls, true)
    ensures FetchAll(STARTED, true, ls) == Some(a) && AllUnplaced(a.core.total) == SpelledStream(docs)
    ensures a.core.flowLevel == 0 && |a.core.keys| == 1 && !a.core.keys[0].possible
  {
    hide FetchAll, SpelledDocs, StreamWritten;
    var said := [Plainly(StreamStartToken)];
    assert STARTED.indents == [] && Levels(STARTED) == BASE && AllUnplaced(STARTED.total) == said;
    SettledBetween(STARTED, said);
    a := DocsRun(docs, ls, true, STARTED, true, said);
  }
}
