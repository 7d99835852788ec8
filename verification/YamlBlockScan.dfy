/** What is written in blocks is fetched as the tokens it spells. */
module YamlBlockScan {
  import opened Wrappers
  import opened YamlTokens
  import opened TokenQueue
  import opened YamlScanCore
  import opened YamlFetch
  import opened YamlSource
  import opened YamlEager
  import opened YamlLayout
  import opened YamlFlowScan

  /** Outside brackets there is one key, and the levels increase. */
  ghost predicate Outside(c: Core) { c.flowLevel == 0 && |c.keys| == 1 && IndentsOk(c.indents, c.indent) }

  /** No key is required here. */
  predicate Quiet(c: Core) { |c.keys| == 1 && !(c.keys[0].possible && c.keys[0].required) }

  //
  // One lexeme, no deeper level being open.
  //

  lemma NothingToShut(c: Core, column: int, mark: Mark)
    requires Outside(c) && c.indent <= column
    ensures Shut(c, column, mark) == c
  {
    forall i | 0 <= i < |Levels(c)| ensures Levels(c)[i] <= column {}
    NoneDeeper(Levels(c), column);
    assert c.total + seq(0, _ => PlainToken(BlockEndToken, mark)) == c.total;
    assert Levels(c)[..|c.indents|] == c.indents;
  }

  lemma OutsideFetch(c: Core, allowed: bool, x: Lexeme)
    requires Outside(c) && c.indent <= x.token.start.column && !Overdue(c.keys, x.token.start)
    ensures Fetched(c, allowed, x)
         == Dispatched(c.(keys := [Fresh(c.keys[0], x.token.start)]), allowed || x.newline, x.token.start, x)
  {
    hide Dispatched, Overdue, Shut;
    var mark := x.token.start;
    assert Refreshed(c, mark).keys == [Fresh(c.keys[0], mark)];
    NothingToShut(Refreshed(c, mark), mark.column, mark);
  }

  /** The key after the lexeme, which is saved where one may start. */
  function KeyThen(c: Core, allowed: bool, x: Lexeme): SimpleKey
    requires |c.keys| == 1
  {
    if MayStart(allowed, x) then KeyFor(c, x) else Fresh(c.keys[0], x.token.start)
  }

  /** A key may stand here: deeper than the block, or at its column where a key may start. */
  predicate Stands(c: Core, allowed: bool, x: Lexeme) {
    c.indent < x.token.start.column || (c.indent == x.token.start.column && MayStart(allowed, x))
  }

  /** Nothing changes but the key, and these tokens are added. */
  predicate Adds(c: Core, d: Core, ts: seq<Token>) {
    && |d.keys| == 1 && d == c.(keys := d.keys, total := d.total)
    && AllUnplaced(d.total) == AllUnplaced(c.total) + ts
  }

  lemma AddsThen(c: Core, d: Core, e: Core, ts: seq<Token>, us: seq<Token>)
    requires Adds(c, d, ts) && Adds(d, e, us)
    ensures Adds(c, e, ts + us)
  {
  }

  /** A key that is required is not given up for another. */
  predicate Free(c: Core, allowed: bool, x: Lexeme)
    requires |c.keys| == 1
  {
    Quiet(c) || (!MayStart(allowed, x) && !Stale(c.keys[0], x.token.start))
  }

  lemma OutContent(c: Core, allowed: bool, x: Lexeme)
    requires Outside(c) && Free(c, allowed, x) && Stands(c, allowed, x) && x.kind.AtContent? && x.ok
    ensures Fetched(c, allowed, x).Some? && Fetched(c, allowed, x).value.allowed == x.brokenAfter
    ensures var d := Fetched(c, allowed, x).value.core;
      Adds(c, d, [Unplaced(x.token)]) && d.keys[0] == KeyThen(c, allowed, x)
  {
    hide Fetched, IndentsOk;
    OutsideFetch(c, allowed, x);
    UnplacedSnoc(c.total, x.token);
  }

  lemma OutOpen(c: Core, allowed: bool, x: Lexeme)
    requires Outside(c) && Free(c, allowed, x) && Stands(c, allowed, x) && x.kind.AtFlowStart?
    ensures Fetched(c, allowed, x).Some? && Fetched(c, allowed, x).value.allowed
    ensures Opens(c, Fetched(c, allowed, x).value.core, x, [KeyThen(c, allowed, x)])
  {
    hide Fetched, IndentsOk;
    OutsideFetch(c, allowed, x);
    UnplacedSnoc(c.total, x.token);
  }

  lemma OutText(c: Core, allowed: bool, x: Lexeme)
    requires Outside(c) && Quiet(c) && c.indent < x.token.start.column && x.kind.AtBlockScalar? && x.ok
    ensures Fetched(c, allowed, x).Some?
    ensures var d := Fetched(c, allowed, x).value.core; Adds(c, d, [Unplaced(x.token)]) && !LastKeyPossible(d)
  {
    hide Fetched, IndentsOk;
    OutsideFetch(c, allowed, x);
    UnplacedSnoc(c.total, x.token);
  }

  //
  // Words.
  //

  predicate MarkAmong(mark: Mark, ls: seq<Lexeme>) { exists i :: 0 <= i < |ls| && ls[i].token.start == mark }

  /** A possible key is the one there was or one of these lexemes. */
  predicate KeyAmong(c: Core, d: Core, ls: seq<Lexeme>) {
    && |c.keys| == |d.keys| == 1
    && (d.keys[0].possible ==> (c.keys[0].possible && d.keys[0].mark == c.keys[0].mark) || MarkAmong(d.keys[0].mark, ls))
  }

  lemma AmongThen(c: Core, d: Core, e: Core, ls: seq<Lexeme>, ms: seq<Lexeme>)
    requires KeyAmong(c, d, ls) && KeyAmong(d, e, ms)
    ensures KeyAmong(c, e, ls + ms)
  {
    if e.keys[0].possible {
      if i :| 0 <= i < |ms| && ms[i].token.start == e.keys[0].mark {
        assert (ls + ms)[|ls| + i].token.start == e.keys[0].mark;
      } else if i :| 0 <= i < |ls| && ls[i].token.start == e.keys[0].mark {
        assert (ls + ms)[i].token.start == e.keys[0].mark;
      }
    }
  }

  /** Properties, a scalar or an alias deeper than the block. */
  lemma {:induction false} PlainRun(c: Core, allowed: bool, ls: seq<Lexeme>, ts: seq<Token>) returns (a: After)
    requires Outside(c) && Quiet(c) && DeeperThan(c.indent, ls) && Says(ls, ts) && ScalarLast(ts)
    ensures FetchAll(c, allowed, ls) == Some(a) && Adds(c, a.core, ts) && Quiet(a.core) && KeyAmong(c, a.core, ls)
    ensures ls == [] ==> a == After(c, allowed)
    ensures ls != [] && !ts[|ts| - 1].kind.ScalarToken? ==> !a.allowed
    decreases |ls|
  {
    hide Fetched, FetchAll, IndentsOk, AllUnplaced;
    if ls == [] {
      FetchAllNone(c, allowed);
      return After(c, allowed);
    }
    var x, rest := ls[0], ls[1..];
    assert ls == [x] + rest && ts == [ts[0]] + ts[1..];
    OutContent(c, allowed, x);
    var m := Fetched(c, allowed, x).value;
    FetchAllCons(c, allowed, x, rest);
    OneAmong(c, m.core, allowed, x);
    a := PlainRun(m.core, m.allowed, rest, ts[1..]);
    AddsThen(c, m.core, a.core, [ts[0]], ts[1..]);
    AmongThen(c, m.core, a.core, [x], rest);
  }

  lemma OneAmong(c: Core, d: Core, allowed: bool, x: Lexeme)
    requires |c.keys| == 1 && |d.keys| == 1 && d.keys[0] == KeyThen(c, allowed, x)
    ensures KeyAmong(c, d, [x])
    ensures Quiet(c) && c.flowLevel == 0 && c.indent < x.token.start.column ==> Quiet(d)
  {
    assert [x][0].token.start == x.token.start;
  }

  /** On one line behind a key, the key stays. */
  lemma {:induction false} LineRun(c: Core, ls: seq<Lexeme>, ts: seq<Token>) returns (a: After)
    requires Outside(c) && DeeperThan(c.indent, ls) && Says(ls, ts) && ScalarLast(ts)
    requires c.keys[0].possible && Near(c.keys[0].mark, ls) && forall i | 0 <= i < |ls| :: !ls[i].newline
    ensures FetchAll(c, false, ls) == Some(a) && Adds(c, a.core, ts) && a.core.keys == c.keys
    ensures ls == [] ==> a == After(c, false)
    ensures ts == [] || !ts[|ts| - 1].kind.ScalarToken? ==> !a.allowed
    decreases |ls|
  {
    hide Fetched, FetchAll, IndentsOk, AllUnplaced;
    if ls == [] {
      FetchAllNone(c, false);
      return After(c, false);
    }
    var x, rest := ls[0], ls[1..];
    assert ls == [x] + rest && ts == [ts[0]] + ts[1..];
    OutContent(c, false, x);
    var m := Fetched(c, false, x).value;
    assert m.core.keys == c.keys;
    FetchAllCons(c, false, x, rest);
    if rest == [] {
      FetchAllNone(m.core, m.allowed);
      a := m;
    } else {
      a := LineRun(m.core, rest, ts[1..]);
    }
    AddsThen(c, m.core, a.core, [ts[0]], ts[1..]);
  }

  /** Properties, a scalar or an alias where a key may start: it is saved for all of them. */
  lemma {:induction false} KeyRun(c: Core, allowed: bool, ls: seq<Lexeme>, ts: seq<Token>) returns (a: After)
    requires Outside(c) && Quiet(c) && Says(ls, ts) && ScalarLast(ts)
    requires OneLine(ls) && MayStart(allowed, ls[0]) && c.indent <= ls[0].token.start.column && DeeperThan(c.indent, ls[1..])
    ensures FetchAll(c, allowed, ls) == Some(a) && Adds(c, a.core, ts) && a.core.keys == [KeyFor(c, ls[0])]
    ensures !ts[|ts| - 1].kind.ScalarToken? ==> !a.allowed
  {
    hide Fetched, FetchAll, IndentsOk, AllUnplaced;
    var x, rest := ls[0], ls[1..];
    assert ls == [x] + rest && ts == [ts[0]] + ts[1..];
    OutContent(c, allowed, x);
    var m := Fetched(c, allowed, x).value;
    FetchAllCons(c, allowed, x, rest);
    if rest == [] {
      FetchAllNone(m.core, m.allowed);
      a := m;
    } else {
      a := LineRun(m.core, rest, ts[1..]);
    }
    AddsThen(c, m.core, a.core, [ts[0]], ts[1..]);
  }

  /** What is inside the bracket, back to the level around it. */
  lemma InteriorRun(x: Source, c: Core, key: SimpleKey, open: Lexeme, m: After, rest: seq<Lexeme>) returns (a: After)
    requires Outside(c) && Opens(c, m.core, open, [key]) && m.allowed && Timely([key], rest)
    requires (x.Items? || x.Pairs?) && x.form.InFlow?
    requires x.Items? ==> ItemsWritten(x.items, true, x.form.comma, rest)
    requires x.Pairs? ==> EntriesWritten(x.entries, true, x.form.comma, rest)
    ensures FetchAll(m.core, m.allowed, rest) == Some(a)
    ensures Adds(c, a.core, [Unplaced(open.token)] + Interior(x)) && a.core.keys == [Aged(key, rest)]
  {
    hide Aged, FetchAll, Timely, ItemsWritten, EntriesWritten, FlowItems, FlowEntries, IndentsOk;
    assert Outer(m.core) == [key];
    if x.Items? {
      a := ItemsRun(x.items, true, x.form.comma, rest, m.core, true);
    } else {
      a := EntriesRun(x.entries, true, x.form.comma, rest, m.core, true);
    }
    assert AllAged([key], rest) == [Aged(key, rest)];
  }

  lemma FlowParts(x: Source, ls: seq<Lexeme>)
    requires FlowWritten(x, ls) && (x.Items? || x.Pairs?)
    ensures var n := |PropertyTokens(x.props)|;
      && n < |ls| && ls == ls[..n] + ([ls[n]] + ls[n + 1..]) && Says(ls[..n], PropertyTokens(x.props)) && x.form.InFlow?
      && ls[n].kind.AtFlowStart? && Unplaced(ls[n].token) == Plainly(if x.Items? then FlowSequenceStartToken else FlowMappingStartToken)
      && (x.Items? ==> ItemsWritten(x.items, true, x.form.comma, ls[n + 1..]))
      && (x.Pairs? ==> EntriesWritten(x.entries, true, x.form.comma, ls[n + 1..]))
  {
    hide ItemsWritten, EntriesWritten, Says, PropertyTokens;
  }

  /** A flow collection on a level of its own, behind properties that have been taken. */
  lemma BracketRun(x: Source, ls: seq<Lexeme>, c: Core, allowed: bool, h: After) returns (a: After)
    requires FlowWritten(x, ls) && (x.Items? || x.Pairs?) && Outside(c)
    requires var n := |PropertyTokens(x.props)|;
      && n < |ls| && FetchAll(c, allowed, ls[..n]) == Some(h) && Adds(c, h.core, PropertyTokens(x.props))
      && Free(h.core, h.allowed, ls[n]) && Stands(h.core, h.allowed, ls[n])
      && Timely([KeyThen(h.core, h.allowed, ls[n])], ls[n + 1..])
    ensures FetchAll(c, allowed, ls) == Some(a) && Adds(c, a.core, Spelled(x))
    ensures var n := |PropertyTokens(x.props)|; a.core.keys == [Aged(KeyThen(h.core, h.allowed, ls[n]), ls[n + 1..])]
  {
    hide Aged, Fetched, FetchAll, Timely, FlowWritten, ItemsWritten, EntriesWritten, PropertyTokens, FlowItems, FlowEntries, IndentsOk, Spelled;
    FlowParts(x, ls);
    var n := |PropertyTokens(x.props)|;
    var open, rest := ls[n], ls[n + 1..];
    OutOpen(h.core, h.allowed, open);
    var m := Fetched(h.core, h.allowed, open).value;
    FetchAllOne(h.core, h.allowed, open);
    a := InteriorRun(x, h.core, KeyThen(h.core, h.allowed, open), open, m, rest);
    ThreeRun(c, allowed, ls[..n], h, [open], m, rest, ls);
    AddsThen(c, h.core, a.core, PropertyTokens(x.props), [Unplaced(open.token)] + Interior(x));
    CollectionSpelled(x);
    assert PropertyTokens(x.props) + ([Unplaced(open.token)] + Interior(x)) == PropertyTokens(x.props) + [Unplaced(open.token)] + Interior(x);
  }

  /** A word deeper than the block. */
  lemma PlainWord(x: Source, ls: seq<Lexeme>, c: Core, allowed: bool) returns (a: After)
    requires Outside(c) && Quiet(c) && WordWritten(x, ls, c.indent)
    ensures FetchAll(c, allowed, ls) == Some(a) && Adds(c, a.core, Spelled(x)) && Quiet(a.core) && KeyAmong(c, a.core, ls)
  {
    hide Fetched, FetchAll, PropertyTokens, IndentsOk, ItemsWritten, EntriesWritten, Adds, Quiet, KeyAmong;
    if x.Items? || x.Pairs? {
      a := PlainCollection(x, ls, c, allowed);
    } else {
      LeafScalars(x);
      assert Front(x, ls) == ls;
      a := PlainRun(c, allowed, ls, Spelled(x));
    }
  }

  lemma PlainCollection(x: Source, ls: seq<Lexeme>, c: Core, allowed: bool) returns (a: After)
    requires Outside(c) && Quiet(c) && WordWritten(x, ls, c.indent) && (x.Items? || x.Pairs?)
    ensures FetchAll(c, allowed, ls) == Some(a) && Adds(c, a.core, Spelled(x)) && Quiet(a.core) && KeyAmong(c, a.core, ls)
  {
    hide Aged, Fetched, FetchAll, Timely, PropertyTokens, IndentsOk, FlowWritten, ItemsWritten, EntriesWritten, AllUnplaced, Says, Spelled, KeyAmong;
    FlowParts(x, ls);
    var n := |PropertyTokens(x.props)|;
    var props, open, rest := ls[..n], ls[n], ls[n + 1..];
    assert Front(x, ls) == props + [open];
    FrontParts(c.indent, props, open);
    hide DeeperThan;
    NoScalars(x.props);
    var h := PlainRun(c, allowed, props, PropertyTokens(x.props));
    var key := KeyThen(h.core, h.allowed, open);
    FreeTimely(key, rest);
    a := BracketRun(x, ls, c, allowed, h);
    AgedKeeps(key, rest);
    BracketAmong(c, h.core, a.core, h.allowed, props, open, rest);
  }

  lemma FrontParts(p: int, props: seq<Lexeme>, open: Lexeme)
    requires DeeperThan(p, props + [open])
    ensures DeeperThan(p, props) && open.token.start.column > p
  {
    assert (props + [open])[|props|] == open;
    assert forall i | 0 <= i < |props| :: (props + [open])[i] == props[i];
  }

  lemma FreeTimely(key: SimpleKey, ls: seq<Lexeme>)
    requires !(key.possible && key.required) || Near(key.mark, ls)
    ensures Timely([key], ls)
  {
    if key.possible && key.required { NearStays(key, ls); }
  }

  lemma BracketAmong(c: Core, h: Core, a: Core, allowed: bool, props: seq<Lexeme>, open: Lexeme, rest: seq<Lexeme>)
    requires KeyAmong(c, h, props) && a.keys == [Aged(KeyThen(h, allowed, open), rest)]
    ensures KeyAmong(c, a, props + ([open] + rest))
  {
    hide Aged;
    AgedKeeps(KeyThen(h, allowed, open), rest);
    OneAmong(h, h.(keys := [KeyThen(h, allowed, open)]), allowed, open);
    AmongThen(c, h, h.(keys := [KeyThen(h, allowed, open)]), props, [open]);
    AmongThen(c, h.(keys := [KeyThen(h, allowed, open)]), a, props + [open], rest);
    assert props + [open] + rest == props + ([open] + rest);
  }

  /** A word on one line where a key may start. */
  lemma KeyWord(x: Source, ls: seq<Lexeme>, c: Core, allowed: bool) returns (a: After)
    requires Outside(c) && Quiet(c) && FlowWritten(x, ls) && OneLine(ls) && MayStart(allowed, ls[0])
    requires c.indent <= ls[0].token.start.column && DeeperThan(c.indent, ls[1..])
    ensures FetchAll(c, allowed, ls) == Some(a) && Adds(c, a.core, Spelled(x)) && a.core.keys == [KeyFor(c, ls[0])]
  {
    hide Aged, Fetched, FetchAll, PropertyTokens, IndentsOk, ItemsWritten, EntriesWritten, AllUnplaced;
    if x.Items? || x.Pairs? {
      FlowParts(x, ls);
      hide FlowWritten, Spelled, OneLine, Says, DeeperThan, Adds;
      var n := |PropertyTokens(x.props)|;
      var h := KeyHead(x.props, ls, c, allowed, n);
      NearLater(ls, n);
      NearStays(KeyFor(c, ls[0]), ls[n + 1..]);
      FreeTimely(KeyFor(c, ls[0]), ls[n + 1..]);
      a := BracketRun(x, ls, c, allowed, h);
    } else {
      LeafScalars(x);
      a := KeyRun(c, allowed, ls, Spelled(x));
    }
  }

  lemma NearLater(ls: seq<Lexeme>, n: nat)
    requires OneLine(ls) && n < |ls|
    ensures Near(ls[0].token.start, ls[n + 1..])
  {
  }

  /** The properties of a key that is a collection, up to its bracket. */
  lemma KeyHead(p: Properties, ls: seq<Lexeme>, c: Core, allowed: bool, n: nat) returns (h: After)
    requires Outside(c) && Quiet(c) && n == |PropertyTokens(p)| < |ls| && Says(ls[..n], PropertyTokens(p))
    requires OneLine(ls) && MayStart(allowed, ls[0]) && c.indent <= ls[0].token.start.column && DeeperThan(c.indent, ls[1..])
    ensures FetchAll(c, allowed, ls[..n]) == Some(h) && Adds(c, h.core, PropertyTokens(p))
    ensures KeyThen(h.core, h.allowed, ls[n]) == KeyFor(c, ls[0]) && Free(h.core, h.allowed, ls[n]) && Stands(h.core, h.allowed, ls[n])
  {
    hide Fetched, FetchAll, PropertyTokens, IndentsOk, AllUnplaced, Says;
    if n == 0 {
      FetchAllNone(c, allowed);
      h := After(c, allowed);
      assert ls[..0] == [] && PropertyTokens(p) == [] && AllUnplaced(c.total) + [] == AllUnplaced(c.total);
    } else {
      LineFront(c.indent, ls, n);
      NoScalars(p);
      h := KeyRun(c, allowed, ls[..n], PropertyTokens(p));
      assert ls[1..][n - 1] == ls[n] && ls[..n][0] == ls[0];
    }
  }

  lemma LineFront(p: int, ls: seq<Lexeme>, n: nat)
    requires OneLine(ls) && DeeperThan(p, ls[1..]) && 0 < n <= |ls|
    ensures OneLine(ls[..n]) && DeeperThan(p, ls[..n][1..])
  {
    assert forall i | 0 <= i < n - 1 :: ls[..n][1..][i] == ls[1..][i];
  }

  /** A literal or folded scalar deeper than the block. */
  lemma TextRun(x: Source, ls: seq<Lexeme>, c: Core, allowed: bool) returns (a: After)
    requires Outside(c) && Quiet(c) && BlockTextWritten(x, ls, c.indent)
    ensures FetchAll(c, allowed, ls) == Some(a) && Adds(c, a.core, Spelled(x)) && |a.core.keys| == 1 && !a.core.keys[0].possible
  {
    hide Fetched, FetchAll, PropertyTokens, IndentsOk, AllUnplaced;
    var n := |PropertyTokens(x.props)|;
    var props, text := ls[..n], ls[n];
    assert ls == props + [text];
    FrontParts(c.indent, props, text);
    NoScalars(x.props);
    var h := PlainRun(c, allowed, props, PropertyTokens(x.props));
    OutText(h.core, h.allowed, text);
    a := Fetched(h.core, h.allowed, text).value;
    FetchAllOne(h.core, h.allowed, text);
    FetchAllThen(c, allowed, props, h, [text], ls);
    AddsThen(c, h.core, a.core, PropertyTokens(x.props), [Unplaced(text.token)]);
  }

  //
  // Blocks that are still open.
  //

  function Ends(n: nat): seq<Token> { seq(n, _ => Plainly(BlockEndToken)) }

  /** Once the blocks deeper than these levels are closed, `said` are the tokens. */
  ghost predicate Pending(levels: seq<int>, c: Core, said: seq<Token>) {
    && Outside(c) && 1 <= |levels| <= |Levels(c)| && Levels(c)[..|levels|] == levels
    && AllUnplaced(c.total) + Ends(|Levels(c)| - |levels|) == said
  }

  /** None is deeper. */
  ghost predicate Settled(levels: seq<int>, c: Core, said: seq<Token>) {
    Outside(c) && Levels(c) == levels && AllUnplaced(c.total) == said
  }

  lemma SettledPends(levels: seq<int>, c: Core, said: seq<Token>)
    requires Settled(levels, c, said)
    ensures Pending(levels, c, said) && levels != [] && levels[|levels| - 1] == c.indent
  {
    assert said + Ends(0) == said;
  }

  lemma SettledAdds(levels: seq<int>, c: Core, d: Core, said: seq<Token>, ts: seq<Token>)
    requires Settled(levels, c, said) && Adds(c, d, ts)
    ensures Settled(levels, d, said + ts)
  {
  }

  /** The innermost of the levels has been left open as well. */
  lemma PendsOuter(levels: seq<int>, q: int, c: Core, said: seq<Token>)
    requires Pending(levels + [q], c, said) && levels != []
    ensures Pending(levels, c, said + [Plainly(BlockEndToken)])
  {
    var n := |Levels(c)| - |levels| - 1;
    assert Ends(n + 1) == Ends(n) + [Plainly(BlockEndToken)];
    assert AllUnplaced(c.total) + Ends(n + 1) == AllUnplaced(c.total) + Ends(n) + [Plainly(BlockEndToken)];
    assert Levels(c)[..|levels|] == (levels + [q])[..|levels|] == levels;
  }

  lemma LevelsRise(c: Core, i: nat, j: nat)
    requires Outside(c) && i < j < |Levels(c)|
    ensures Levels(c)[i] < Levels(c)[j]
  {
  }

  lemma PendingDepth(levels: seq<int>, c: Core, said: seq<Token>, column: int)
    requires Pending(levels, c, said) && levels[|levels| - 1] <= column
    requires levels[|levels| - 1] == column || Levels(c) == levels
    ensures Deeper(Levels(c), column) == |Levels(c)| - |levels|
  {
    hide Deeper, IndentsOk, AllUnplaced;
    var k := |levels| - 1;
    assert levels[k] == Levels(c)[k];
    forall i | 0 <= i <= k ensures Levels(c)[i] <= column { if i < k { LevelsRise(c, i, k); } }
    forall i | k < i < |Levels(c)| ensures Levels(c)[i] > column { LevelsRise(c, k, i); }
    DeeperAfter(Levels(c), column, k);
  }

  /** Leaving the deeper levels says what was pending. */
  lemma ShutSettles(levels: seq<int>, c: Core, said: seq<Token>, column: int, mark: Mark)
    requires Pending(levels, c, said) && levels[|levels| - 1] <= column
    requires levels[|levels| - 1] == column || Levels(c) == levels
    ensures Settled(levels, Shut(c, column, mark), said) && Shut(c, column, mark).keys == c.keys
    ensures Shut(c, column, mark).indent <= column
  {
    hide Deeper, IndentsOk, AllUnplaced;
    PendingDepth(levels, c, said, column);
    var k, n := |levels| - 1, |Levels(c)| - |levels|;
    assert levels[k] == Levels(c)[k];
    ShutIndents(c, levels, k);
    var ends := seq(n, _ => PlainToken(BlockEndToken, mark));
    UnplacedConcat(c.total, ends);
    UnplacedEnds(n, mark);
    var d := Shut(c, column, mark);
    assert d.indents == Levels(c)[..k] && d.indent == Levels(c)[k] && d.total == c.total + ends;
  }

  lemma UnplacedEnds(n: nat, mark: Mark)
    ensures AllUnplaced(seq(n, _ => PlainToken(BlockEndToken, mark))) == Ends(n)
  {
  }

  lemma ShutIndents(c: Core, levels: seq<int>, k: nat)
    requires Outside(c) && k < |Levels(c)| && levels == Levels(c)[..k + 1]
    ensures Levels(c)[..k] + [Levels(c)[k]] == levels && IndentsOk(Levels(c)[..k], Levels(c)[k])
  {
  }

  /** A lexeme at the column of the innermost of the levels closes the deeper ones first. */
  lemma Settle(levels: seq<int>, c: Core, said: seq<Token>, allowed: bool, x: Lexeme) returns (d: Core)
    requires Pending(levels, c, said) && Quiet(c) && levels[|levels| - 1] <= x.token.start.column
    requires levels[|levels| - 1] == x.token.start.column || Levels(c) == levels
    ensures Settled(levels, d, said) && d.keys == [Fresh(c.keys[0], x.token.start)]
    ensures Fetched(c, allowed, x) == Fetched(d, allowed, x)
  {
    hide Dispatched, Shut, IndentsOk;
    var mark := x.token.start;
    var r := Refreshed(c, mark);
    assert r == c.(keys := [Fresh(c.keys[0], mark)]);
    assert Levels(r) == Levels(c);
    ShutSettles(levels, r, said, mark.column, mark);
    d := Shut(r, mark.column, mark);
    assert Refreshed(d, mark).keys == d.keys;
    assert !Overdue(c.keys, mark) && !Overdue(d.keys, mark);
    NothingToShut(d, mark.column, mark);
    assert c.flowLevel == 0 && d.flowLevel == 0;
  }

  lemma SameFirst(c: Core, d: Core, allowed: bool, ls: seq<Lexeme>)
    requires ls != [] && Fetched(c, allowed, ls[0]) == Fetched(d, allowed, ls[0])
    ensures FetchAll(c, allowed, ls) == FetchAll(d, allowed, ls)
  {
    hide Fetched;
  }

  //
  // The lexemes that make blocks.
  //

  /** A dash in the column of its sequence. */
  lemma DashFetch(levels: seq<int>, c: Core, said: seq<Token>, allowed: bool, x: Lexeme) returns (m: After)
    requires Settled(levels, c, said) && Quiet(c) && c.indent == x.token.start.column && MayStart(allowed, x)
    requires Is(x, AtBlockEntry, BlockEntryToken)
    ensures Fetched(c, allowed, x) == Some(m) && m.allowed && Settled(levels, m.core, said + [Plainly(BlockEntryToken)])
    ensures !m.core.keys[0].possible
  {
    hide Fetched, IndentsOk;
    OutsideFetch(c, allowed, x);
    UnplacedSnoc(c.total, x.token);
    m := Fetched(c, allowed, x).value;
  }

  lemma QuestionFetch(levels: seq<int>, c: Core, said: seq<Token>, allowed: bool, x: Lexeme) returns (m: After)
    requires Settled(levels, c, said) && Quiet(c) && c.indent == x.token.start.column && MayStart(allowed, x)
    requires Is(x, AtKey, KeyToken)
    ensures Fetched(c, allowed, x) == Some(m) && m.allowed && Settled(levels, m.core, said + [Plainly(KeyToken)])
    ensures !m.core.keys[0].possible
  {
    hide Fetched, IndentsOk;
    OutsideFetch(c, allowed, x);
    UnplacedSnoc(c.total, x.token);
    m := Fetched(c, allowed, x).value;
  }

  lemma ColonFetch(levels: seq<int>, c: Core, said: seq<Token>, allowed: bool, x: Lexeme) returns (m: After)
    requires Settled(levels, c, said) && !c.keys[0].possible && c.indent == x.token.start.column && MayStart(allowed, x)
    requires Is(x, AtValue, ValueToken)
    ensures Fetched(c, allowed, x) == Some(m) && m.allowed && Settled(levels, m.core, said + [Plainly(ValueToken)])
    ensures !m.core.keys[0].possible
  {
    hide Fetched, IndentsOk;
    OutsideFetch(c, allowed, x);
    UnplacedSnoc(c.total, x.token);
    m := Fetched(c, allowed, x).value;
  }

  /** A dash or a question mark deeper than the block opens one. */
  lemma OpenBlock(levels: seq<int>, c: Core, said: seq<Token>, allowed: bool, x: Lexeme) returns (r: Core)
    requires Settled(levels, c, said) && Quiet(c) && c.indent < x.token.start.column && MayStart(allowed, x)
    requires x.kind.AtBlockEntry? || x.kind.AtKey?
    ensures Fetched(c, allowed, x) == Fetched(r, allowed, x) && r.keys == [Fresh(c.keys[0], x.token.start)]
    ensures Settled(levels + [x.token.start.column], r,
                    said + [Plainly(if x.kind.AtBlockEntry? then BlockSequenceStartToken else BlockMappingStartToken)])
  {
    hide Fetched;
    var mark := x.token.start;
    var kind := if x.kind.AtBlockEntry? then BlockSequenceStartToken else BlockMappingStartToken;
    var d := c.(keys := [Fresh(c.keys[0], mark)]);
    r := Rolled(d, kind, mark);
    OpenedLevels(c, mark.column);
    OutsideFetch(c, allowed, x);
    OutsideFetch(r, allowed, x);
    UnplacedSnoc(c.total, PlainToken(kind, mark));
  }

  lemma OpenedLevels(c: Core, column: int)
    requires Outside(c) && c.indent < column
    ensures IndentsOk(c.indents + [c.indent], column)
  {
  }

  /** The colon behind a simple key puts KEY, and the start of a mapping where it is deeper, in front of the key. */
  lemma TurnFetch(levels: seq<int>, c: Core, h: Core, allowed: bool, key: seq<Token>, said: seq<Token>, x: Lexeme) returns (m: After)
    requires Settled(levels, c, said) && Adds(c, h, key) && h.keys[0].possible && h.keys[0].number == |c.total|
    requires Near(h.keys[0].mark, [x]) && c.indent <= h.keys[0].mark.column && c.indent <= x.token.start.column
    requires Is(x, AtValue, ValueToken)
    ensures Fetched(h, allowed, x) == Some(m) && !m.allowed && |m.core.keys| == 1 && !m.core.keys[0].possible
    ensures var q := h.keys[0].mark.column; var opens := c.indent < q;
      Settled(if opens then levels + [q] else levels, m.core,
              said + ((if opens then [Plainly(BlockMappingStartToken)] else []) + [Plainly(KeyToken)] + key + [Plainly(ValueToken)]))
  {
    hide Fetched, WithKey;
    var k, q := h.keys[0], h.keys[0].mark.column;
    assert Fresh(k, x.token.start) == k by { assert [x][0] == x; }
    assert h.(keys := [k]) == h;
    if c.indent < q { OpenedLevels(c, q); }
    hide IndentsOk;
    OutsideFetch(h, allowed, x);
    m := Fetched(h, allowed, x).value;
    TurnedTotal(c, h, k, c.indent < q, key);
    UnplacedSnoc(WithKey(h.total, k, c.indent < q), x.token);
  }

  lemma TurnedTotal(c: Core, h: Core, k: SimpleKey, opens: bool, key: seq<Token>)
    requires Adds(c, h, key) && k.number == |c.total|
    ensures |c.total| <= |h.total|
    ensures AllUnplaced(WithKey(h.total, k, opens))
         == AllUnplaced(c.total) + ((if opens then [Plainly(BlockMappingStartToken)] else []) + [Plainly(KeyToken)] + key)
  {
    hide WithKey, AllUnplaced;
    var n := |c.total|;
    UnplacedCut(c.total, n);
    UnplacedCut(h.total, n);
    assert |c.total| <= |h.total|;
    WithKeyIs(h.total, k, opens);
    var put := (if opens then [PlainToken(BlockMappingStartToken, k.mark)] else []) + [PlainToken(KeyToken, k.mark)];
    UnplacedConcat(h.total[..n] + put, h.total[n..]);
    UnplacedConcat(h.total[..n], put);
    PutUnplaced(k.mark, opens);
    var all := AllUnplaced(h.total);
    assert all[..n] == AllUnplaced(c.total) && all[n..] == key;
  }

  lemma UnplacedCut(ts: seq<Token>, n: nat)
    ensures |AllUnplaced(ts)| == |ts|
    ensures n <= |ts| ==> AllUnplaced(ts[..n]) == AllUnplaced(ts)[..n] && AllUnplaced(ts[n..]) == AllUnplaced(ts)[n..]
  {
  }

  lemma PutUnplaced(mark: Mark, opens: bool)
    ensures AllUnplaced((if opens then [PlainToken(BlockMappingStartToken, mark)] else []) + [PlainToken(KeyToken, mark)])
         == (if opens then [Plainly(BlockMappingStartToken)] else []) + [Plainly(KeyToken)]
  {
  }

  //
  // Nodes in blocks.
  //

  /** A node, once the blocks it leaves open are closed, is what it spells. */
  lemma {:induction false} BlockRun(x: Source, ls: seq<Lexeme>, levels: seq<int>, c: Core, allowed: bool, said: seq<Token>) returns (a: After)
    requires Settled(levels, c, said) && !c.keys[0].possible && BlockWritten(x, ls, c.indent, allowed)
    ensures FetchAll(c, allowed, ls) == Some(a) && Pending(levels, a.core, said + Spelled(x))
    ensures Quiet(a.core) && KeyAmong(c, a.core, ls)
    decreases x, 3, 0
  {
    hide Fetched, FetchAll, IndentsOk, WordWritten, BlockTextWritten, Adds, Settled, Pending, Spelled, KeyAmong;
    SettledOutside(levels, c, said);
    if x.Nothing? {
      FetchAllNone(c, allowed);
      a := After(c, allowed);
      SettledPends(levels, c, said);
      NothingSaid(said, c);
    } else if (x.Items? || x.Pairs?) && !x.form.InFlow? {
      a := BlockCollectionRun(x, ls, levels, c, allowed, said);
    } else {
      if WordWritten(x, ls, c.indent) {
        a := PlainWord(x, ls, c, allowed);
      } else {
        a := TextRun(x, ls, c, allowed);
        NoneAmong(c, a.core, ls);
      }
      SettledAdds(levels, c, a.core, said, Spelled(x));
      SettledPends(levels, a.core, said + Spelled(x));
    }
  }

  lemma SettledOutside(levels: seq<int>, c: Core, said: seq<Token>)
    requires Settled(levels, c, said)
    ensures Outside(c) && Levels(c) == levels && levels != [] && levels[|levels| - 1] == c.indent
  {
  }

  lemma PendingOutside(levels: seq<int>, c: Core, said: seq<Token>)
    requires Pending(levels, c, said)
    ensures Outside(c) && levels != []
  {
  }

  lemma NothingSaid(said: seq<Token>, c: Core)
    requires |c.keys| == 1
    ensures said + Spelled(Nothing) == said && KeyAmong(c, c, [])
  {
  }

  lemma NoneAmong(c: Core, d: Core, ls: seq<Lexeme>)
    requires |c.keys| == |d.keys| == 1 && !d.keys[0].possible
    ensures KeyAmong(c, d, ls) && Quiet(d)
  {
  }

  /** The properties of a block collection, then its items or entries. */
  lemma {:induction false} BlockCollectionRun(x: Source, ls: seq<Lexeme>, levels: seq<int>, c: Core, allowed: bool, said: seq<Token>)
    returns (a: After)
    requires Settled(levels, c, said) && !c.keys[0].possible && BlockWritten(x, ls, c.indent, allowed)
    requires (x.Items? || x.Pairs?) && !x.form.InFlow?
    ensures FetchAll(c, allowed, ls) == Some(a) && Pending(levels, a.core, said + Spelled(x))
    ensures Quiet(a.core) && KeyAmong(c, a.core, ls)
    decreases x, 2, 0
  {
    hide Fetched, FetchAll, IndentsOk, Adds, Settled, Pending, Spelled, KeyAmong, DashesWritten, RowsWritten, PropertyTokens, DeeperThan, Says, ScalarLast;
    var n := |PropertyTokens(x.props)|;
    var props, body, q := ls[..n], ls[n..], ls[n].token.start.column;
    assert ls == props + body && body[0] == ls[n];
    SettledOutside(levels, c, said);
    NoScalars(x.props);
    var h := PlainRun(c, allowed, props, PropertyTokens(x.props));
    SettledAdds(levels, c, h.core, said, PropertyTokens(x.props));
    SettledOutside(levels, h.core, said + PropertyTokens(x.props));
    FetchAllThen(c, allowed, props, h, body, ls);
    if x.Items? {
      a := SequenceRun(x.items, x.form.InBlock?, body, levels, h.core, h.allowed, said + PropertyTokens(x.props));
    } else {
      a := RowsRun(x.entries, q, body, levels, h.core, h.allowed, said + PropertyTokens(x.props), true);
      PendsOuter(levels, q, a.core, said + PropertyTokens(x.props) + ([Plainly(BlockMappingStartToken)] + Rows(x.entries)));
    }
    BlockSpelled(x, said);
    AmongThen(c, h.core, a.core, props, body);
  }

  /** The tokens of the entries of a block mapping. */
  function Rows(es: seq<Entry>): seq<Token> { if es == [] then [] else EntryTokens(es[0]) + Rows(es[1..]) }

  lemma {:induction false} RowsEnd(es: seq<Entry>)
    ensures BlockEntries(es) == Rows(es) + [Plainly(BlockEndToken)]
    decreases |es|
  {
    hide EntryTokens;
    if es != [] { RowsEnd(es[1..]); }
  }

  lemma {:induction false} ItemsEnd(xs: seq<Source>)
    ensures BlockItems(xs, true) == BlockItems(xs, false) + [Plainly(BlockEndToken)]
    decreases |xs|
  {
    hide Spelled;
    if xs != [] { ItemsEnd(xs[1..]); }
  }

  /** What stands behind the properties. */
  function Body(x: Source): seq<Token>
    requires (x.Items? || x.Pairs?) && !x.form.InFlow?
  {
    if x.Pairs? then [Plainly(BlockMappingStartToken)] + Rows(x.entries) + [Plainly(BlockEndToken)]
    else SequenceTokens(x.items, x.form.InBlock?)
  }

  function SequenceTokens(xs: seq<Source>, block: bool): seq<Token> {
    if block then [Plainly(BlockSequenceStartToken)] + BlockItems(xs, false) + [Plainly(BlockEndToken)] else BlockItems(xs, false)
  }

  lemma BlockSpelled(x: Source, said: seq<Token>)
    requires (x.Items? || x.Pairs?) && !x.form.InFlow?
    ensures Spelled(x) == PropertyTokens(x.props) + Body(x)
    ensures said + PropertyTokens(x.props) + Body(x) == said + Spelled(x)
    ensures x.Pairs? ==>
              said + PropertyTokens(x.props) + ([Plainly(BlockMappingStartToken)] + Rows(x.entries)) + [Plainly(BlockEndToken)] == said + Spelled(x)
  {
    hide PropertyTokens, BlockItems, BlockEntries, Rows;
    if x.Items? { ItemsEnd(x.items); } else { RowsEnd(x.entries); }
  }

  /** A block sequence of its own, or one in the column of the mapping around it. */
  lemma {:induction false} SequenceRun(xs: seq<Source>, block: bool, ls: seq<Lexeme>, levels: seq<int>, c: Core, allowed: bool, said: seq<Token>)
    returns (a: After)
    requires Settled(levels, c, said) && Quiet(c) && xs != [] && ls != [] && MayStart(allowed, ls[0])
    requires var q := ls[0].token.start.column; (if block then q > c.indent else q == c.indent) && DashesWritten(xs, q, ls)
    ensures FetchAll(c, allowed, ls) == Some(a) && Pending(levels, a.core, said + SequenceTokens(xs, block))
    ensures Quiet(a.core) && KeyAmong(c, a.core, ls)
    decreases xs, 1, 0
  {
    hide Fetched, FetchAll, IndentsOk, Settled, Pending, KeyAmong, BlockItems, MayStart;
    assert ls[0].kind.AtBlockEntry?;
    hide DashesWritten;
    var q := ls[0].token.start.column;
    SettledOutside(levels, c, said);
    if block {
      var r := OpenBlock(levels, c, said, allowed, ls[0]);
      var start := [Plainly(BlockSequenceStartToken)];
      SameFirst(c, r, allowed, ls);
      SettledPends(levels + [q], r, said + start);
      a := DashesRun(xs, q, ls, levels + [q], r, allowed, said + start);
      PendsOuter(levels, q, a.core, said + start + BlockItems(xs, false));
      assert said + start + BlockItems(xs, false) + [Plainly(BlockEndToken)] == said + SequenceTokens(xs, true);
      FreshAmong(c, r, ls[0].token.start);
      AmongThen(c, r, a.core, [], ls);
      assert [] + ls == ls;
    } else {
      SettledPends(levels, c, said);
      a := DashesRun(xs, q, ls, levels, c, allowed, said);
    }
  }

  lemma FreshAmong(c: Core, d: Core, mark: Mark)
    requires |c.keys| == 1 && d.keys == [Fresh(c.keys[0], mark)]
    ensures KeyAmong(c, d, []) && (Quiet(c) ==> Quiet(d))
  {
  }

  /** The items of a block sequence, each behind its dash. */
  lemma {:induction false} DashesRun(xs: seq<Source>, q: int, ls: seq<Lexeme>, levels: seq<int>, c: Core, allowed: bool, said: seq<Token>)
    returns (a: After)
    requires Pending(levels, c, said) && Quiet(c) && levels[|levels| - 1] == q && DashesWritten(xs, q, ls)
    requires ls != [] ==> MayStart(allowed, ls[0])
    ensures FetchAll(c, allowed, ls) == Some(a) && Pending(levels, a.core, said + BlockItems(xs, false))
    ensures Quiet(a.core) && KeyAmong(c, a.core, ls)
    decreases xs, 0, 0
  {
    hide Fetched, FetchAll, IndentsOk, Settled, Pending, KeyAmong, Spelled, BlockWritten, MayStart;
    PendingOutside(levels, c, said);
    if xs == [] {
      FetchAllNone(c, allowed);
      a := After(c, allowed);
      assert said + BlockItems(xs, false) == said;
      NothingSaid(said, c);
      return;
    }
    var k: nat :| 1 <= k <= |ls| && BlockWritten(xs[0], ls[1..k], q, true) && (k < |ls| ==> ls[k].newline) && DashesWritten(xs[1..], q, ls[k..]);
    hide DashesWritten, BlockItems;
    var dash, item, rest := ls[0], ls[1..k], ls[k..];
    assert ls == ([dash] + item) + rest;
    var n := DashRun(xs[0], q, dash, item, levels, c, allowed, said);
    var said1 := said + [Plainly(BlockEntryToken)] + Spelled(xs[0]);
    PendingOutside(levels, n.core, said1);
    assert rest != [] ==> MayStart(n.allowed, rest[0]) by { LaterStarts(n.allowed, ls, k); }
    a := DashesRun(xs[1..], q, rest, levels, n.core, n.allowed, said1);
    FetchAllThen(c, allowed, [dash] + item, n, rest, ls);
    DashesSaid(xs, said);
    AmongThen(c, n.core, a.core, [dash] + item, rest);
  }

  /** A dash and the item behind it. */
  lemma {:induction false} DashRun(x: Source, q: int, dash: Lexeme, item: seq<Lexeme>, levels: seq<int>, c: Core, allowed: bool, said: seq<Token>)
    returns (n: After)
    requires Pending(levels, c, said) && Quiet(c) && levels[|levels| - 1] == q
    requires Is(dash, AtBlockEntry, BlockEntryToken) && dash.token.start.column == q && MayStart(allowed, dash) && BlockWritten(x, item, q, true)
    ensures FetchAll(c, allowed, [dash] + item) == Some(n) && Pending(levels, n.core, said + [Plainly(BlockEntryToken)] + Spelled(x))
    ensures Quiet(n.core) && KeyAmong(c, n.core, [dash] + item)
    decreases x, 4, 0
  {
    hide Fetched, FetchAll, IndentsOk, Settled, Pending, KeyAmong, Spelled, BlockWritten, MayStart;
    PendingOutside(levels, c, said);
    var m := DashStart(q, dash, levels, c, allowed, said);
    var said1 := said + [Plainly(BlockEntryToken)];
    SettledOutside(levels, m.core, said1);
    n := BlockRun(x, item, levels, m.core, true, said1);
    PendingOutside(levels, n.core, said1 + Spelled(x));
    FetchAllCons(c, allowed, dash, item);
    NoneAmong(c, m.core, [dash]);
    AmongThen(c, m.core, n.core, [dash], item);
  }

  lemma DashesSaid(xs: seq<Source>, said: seq<Token>)
    requires xs != []
    ensures said + [Plainly(BlockEntryToken)] + Spelled(xs[0]) + BlockItems(xs[1..], false) == said + BlockItems(xs, false)
  {
    hide Spelled;
  }

  lemma DashStart(q: int, dash: Lexeme, levels: seq<int>, c: Core, allowed: bool, said: seq<Token>) returns (m: After)
    requires Quiet(c) && Is(dash, AtBlockEntry, BlockEntryToken) && dash.token.start.column == q && MayStart(allowed, dash)
    requires Pending(levels, c, said) && levels[|levels| - 1] == q
    ensures Fetched(c, allowed, dash) == Some(m) && m.allowed && |m.core.keys| == 1 && !m.core.keys[0].possible
    ensures Settled(levels, m.core, said + [Plainly(BlockEntryToken)])
  {
    hide Fetched, IndentsOk, Settled, Pending, MayStart;
    PendingOutside(levels, c, said);
    var d := Settle(levels, c, said, allowed, dash);
    FreshAmong(c, d, dash.token.start);
    SettledOutside(levels, d, said);
    m := DashFetch(levels, d, said, allowed, dash);
    SettledOutside(levels, m.core, said + [Plainly(BlockEntryToken)]);
  }

  lemma LaterStarts(allowed: bool, ls: seq<Lexeme>, k: nat)
    requires k < |ls| ==> ls[k].newline
    ensures k < |ls| ==> MayStart(allowed, ls[k..][0])
  {
  }

  lemma ThreeAmong(c: Core, m: Core, n: Core, a: Core, ls: seq<Lexeme>, ms: seq<Lexeme>, ns: seq<Lexeme>)
    requires KeyAmong(c, m, ls) && KeyAmong(m, n, ms) && KeyAmong(n, a, ns)
    ensures KeyAmong(c, a, ls + (ms + ns))
  {
    hide KeyAmong;
    AmongThen(m, n, a, ms, ns);
    AmongThen(c, m, a, ls, ms + ns);
  }

  /** The entries of a block mapping; the first of them opens it. */
  lemma {:induction false} RowsRun(es: seq<Entry>, q: int, ls: seq<Lexeme>, levels: seq<int>, c: Core, allowed: bool, said: seq<Token>, opens: bool)
    returns (a: After)
    requires Quiet(c) && RowsWritten(es, q, ls) && (ls != [] ==> MayStart(allowed, ls[0]))
    requires if opens then Settled(levels, c, said) && c.indent < q && es != [] else Pending(levels, c, said) && levels[|levels| - 1] == q
    ensures FetchAll(c, allowed, ls) == Some(a) && Quiet(a.core) && KeyAmong(c, a.core, ls)
    ensures if opens then Pending(levels + [q], a.core, said + ([Plainly(BlockMappingStartToken)] + Rows(es)))
            else Pending(levels, a.core, said + Rows(es))
    decreases es, 0, 0
  {
    hide Fetched, FetchAll, IndentsOk, Settled, Pending, KeyAmong, EntryTokens, RowWritten, MayStart;
    if es == [] {
      PendingOutside(levels, c, said);
      FetchAllNone(c, allowed);
      a := After(c, allowed);
      assert said + Rows(es) == said;
      NothingSaid(said, c);
      return;
    }
    var k: nat :| 1 <= k <= |ls| && RowWritten(es[0], q, ls[..k]) && (k < |ls| ==> ls[k].newline) && RowsWritten(es[1..], q, ls[k..]);
    var row, rest := ls[..k], ls[k..];
    assert ls == row + rest && row[0] == ls[0] && row[0].token.start.column == q;
    var start := if opens then [Plainly(BlockMappingStartToken)] else [];
    var inner := if opens then levels + [q] else levels;
    var n := RowRun(es[0], q, row, levels, c, allowed, said, opens);
    var said1 := said + (start + EntryTokens(es[0]));
    PendingOutside(inner, n.core, said1);
    assert rest != [] ==> MayStart(n.allowed, rest[0]) by { LaterStarts(n.allowed, ls, k); }
    a := RowsRun(es[1..], q, rest, inner, n.core, n.allowed, said1, false);
    FetchAllThen(c, allowed, row, n, rest, ls);
    RowsSaid(es, said, start);
    PendingOutside(inner, a.core, said1 + Rows(es[1..]));
    if opens { SettledOutside(levels, c, said); } else { PendingOutside(levels, c, said); }
    AmongThen(c, n.core, a.core, row, rest);
  }

  lemma RowsSaid(es: seq<Entry>, said: seq<Token>, start: seq<Token>)
    requires es != []
    ensures said + (start + EntryTokens(es[0])) + Rows(es[1..]) == said + (start + Rows(es))
    ensures start == [] ==> said + (start + Rows(es)) == said + Rows(es)
  {
    hide EntryTokens;
  }

  /** One entry; where it opens the mapping the start of it comes first. */
  lemma {:induction false} RowRun(e: Entry, q: int, ls: seq<Lexeme>, levels: seq<int>, c: Core, allowed: bool, said: seq<Token>, opens: bool)
    returns (a: After)
    requires Quiet(c) && RowWritten(e, q, ls) && ls[0].token.start.column == q && MayStart(allowed, ls[0])
    requires if opens then Settled(levels, c, said) && c.indent < q else Pending(levels, c, said) && levels[|levels| - 1] == q
    ensures FetchAll(c, allowed, ls) == Some(a) && Quiet(a.core) && KeyAmong(c, a.core, ls)
    ensures Pending(if opens then levels + [q] else levels, a.core,
                    said + ((if opens then [Plainly(BlockMappingStartToken)] else []) + EntryTokens(e)))
    decreases e, 2, 0
  {
    hide Fetched, FetchAll, IndentsOk, Settled, Pending, KeyAmong, EntryTokens, MayStart, PlainRowAt, QuestionRowAt;
    if k: nat :| e.marked && PlainRowAt(e, q, ls, k) {
      a := PlainRowRun(e, q, ls, k, levels, c, allowed, said, opens);
    } else {
      var k: nat :| QuestionRowAt(e, q, ls, k);
      a := QuestionRowRun(e, q, ls, k, levels, c, allowed, said, opens);
    }
  }

  /** A simple key, its colon, and the value. */
  lemma {:induction false} PlainRowRun(e: Entry, q: int, ls: seq<Lexeme>, k: nat, levels: seq<int>, c: Core, allowed: bool, said: seq<Token>, opens: bool)
    returns (a: After)
    requires Quiet(c) && !e.lone && e.marked && PlainRowAt(e, q, ls, k) && ls[0].token.start.column == q && MayStart(allowed, ls[0])
    requires if opens then Settled(levels, c, said) && c.indent < q else Pending(levels, c, said) && levels[|levels| - 1] == q
    ensures FetchAll(c, allowed, ls) == Some(a) && Quiet(a.core) && KeyAmong(c, a.core, ls)
    ensures Pending(if opens then levels + [q] else levels, a.core,
                    said + ((if opens then [Plainly(BlockMappingStartToken)] else []) + EntryTokens(e)))
    decreases e, 1, 0
  {
    hide Fetched, FetchAll, IndentsOk, Settled, Pending, KeyAmong, Spelled, FlowWritten, BlockWritten, OneLine, DeeperThan, Near, Adds;
    var key, colon, rest := ls[..k], ls[k], ls[k + 1..];
    assert ls == key + ([colon] + rest);
    LineParts(q, ls, k);
    if opens { SettledPends(levels, c, said); SettledOutside(levels, c, said); }
    PendingOutside(levels, c, said);
    var d := Settle(levels, c, said, allowed, ls[0]);
    SameFirst(c, d, allowed, key);
    SettledOutside(levels, d, said);
    FreshAmong(c, d, ls[0].token.start);
    DeeperStill(q, d.indent, key[1..]);
    var h := KeyWord(e.key, key, d, allowed);
    var saved := h.core.keys[0];
    assert opens <==> d.indent < saved.mark.column;
    var m := TurnFetch(levels, d, h.core, h.allowed, Spelled(e.key), said, colon);
    var inner := if opens then levels + [q] else levels;
    var said1 := said + ((if opens then [Plainly(BlockMappingStartToken)] else []) + [Plainly(KeyToken)] + Spelled(e.key) + [Plainly(ValueToken)]);
    SettledOutside(inner, m.core, said1);
    a := BlockRun(e.value, rest, inner, m.core, m.allowed, said1);
    FetchAllOne(h.core, h.allowed, colon);
    ThreeRun(c, allowed, key, h, [colon], m, rest, ls);
    SimpleTokens(e);
    assert said1 + Spelled(e.value) == said + ((if opens then [Plainly(BlockMappingStartToken)] else []) + EntryTokens(e));
    PendingOutside(inner, a.core, said1 + Spelled(e.value));
    NoneAmong(c, m.core, key + [colon]);
    AmongThen(c, m.core, a.core, key + [colon], rest);
    assert key + [colon] + rest == ls;
  }

  lemma LineParts(q: int, ls: seq<Lexeme>, k: nat)
    requires 0 < k < |ls| && OneLine(ls[..k + 1]) && DeeperThan(q, ls[1..k + 1])
    ensures OneLine(ls[..k]) && DeeperThan(q, ls[..k][1..]) && ls[k].token.start.column > q
    ensures Near(ls[0].token.start, [ls[k]])
  {
    assert ls[..k + 1][..k] == ls[..k] && ls[..k + 1][k] == ls[k];
    assert ls[1..k + 1][k - 1] == ls[k];
    assert forall i | 0 <= i < k - 1 :: ls[..k][1..][i] == ls[1..k + 1][i];
    assert ls[..k + 1][0] == ls[0];
  }

  lemma DeeperStill(q: int, p: int, ls: seq<Lexeme>)
    requires DeeperThan(q, ls) && p <= q
    ensures DeeperThan(p, ls)
  {
  }

  /** A question mark and the key behind it, then perhaps a colon and the value. */
  lemma {:induction false} QuestionRowRun(e: Entry, q: int, ls: seq<Lexeme>, k: nat, levels: seq<int>, c: Core, allowed: bool, said: seq<Token>, opens: bool)
    returns (a: After)
    requires Quiet(c) && !e.lone && QuestionRowAt(e, q, ls, k) && Is(ls[0], AtKey, KeyToken)
    requires ls[0].token.start.column == q && MayStart(allowed, ls[0])
    requires if opens then Settled(levels, c, said) && c.indent < q else Pending(levels, c, said) && levels[|levels| - 1] == q
    ensures FetchAll(c, allowed, ls) == Some(a) && Quiet(a.core) && KeyAmong(c, a.core, ls)
    ensures Pending(if opens then levels + [q] else levels, a.core,
                    said + ((if opens then [Plainly(BlockMappingStartToken)] else []) + EntryTokens(e)))
    decreases e, 1, 1
  {
    hide Fetched, FetchAll, IndentsOk, Settled, Pending, KeyAmong, Spelled, BlockWritten, MayStart, EntryTokens, Below;
    var mark, key, rest := ls[0], ls[1..k], ls[k..];
    assert ls == [mark] + (key + rest);
    if opens { SettledOutside(levels, c, said); } else { PendingOutside(levels, c, said); }
    var inner := if opens then levels + [q] else levels;
    var start := if opens then [Plainly(BlockMappingStartToken)] else [];
    var m := QuestionStart(q, mark, levels, c, allowed, said, opens);
    var said1 := said + start + [Plainly(KeyToken)];
    SettledOutside(inner, m.core, said1);
    var n := BlockRun(e.key, key, inner, m.core, true, said1);
    var said2 := said1 + Spelled(e.key);
    PendingOutside(inner, n.core, said2);
    FetchAllOne(c, allowed, mark);
    NoneAmong(c, m.core, [mark]);
    QuestionSaid(e, said, start);
    if e.marked {
      a := ColonRun(e.value, q, rest, key, inner, m.core, n.core, n.allowed, said2);
      PendingOutside(inner, a.core, said2 + ([Plainly(ValueToken)] + Spelled(e.value)));
    } else {
      assert rest == [];
      FetchAllNone(n.core, n.allowed);
      a := n;
      NothingSaid(said, n.core);
    }
    ThreeRun(c, allowed, [mark], m, key, n, rest, ls);
    ThreeAmong(c, m.core, n.core, a.core, [mark], key, rest);
  }

  lemma QuestionSaid(e: Entry, said: seq<Token>, start: seq<Token>)
    requires !e.lone
    ensures e.marked ==> said + start + [Plainly(KeyToken)] + Spelled(e.key) + ([Plainly(ValueToken)] + Spelled(e.value)) == said + (start + EntryTokens(e))
    ensures !e.marked ==> said + start + [Plainly(KeyToken)] + Spelled(e.key) == said + (start + EntryTokens(e))
  {
    hide Spelled;
    QuestionTokens(e);
  }

  lemma QuestionStart(q: int, mark: Lexeme, levels: seq<int>, c: Core, allowed: bool, said: seq<Token>, opens: bool) returns (m: After)
    requires Quiet(c) && Is(mark, AtKey, KeyToken) && mark.token.start.column == q && MayStart(allowed, mark)
    requires if opens then Settled(levels, c, said) && c.indent < q else Pending(levels, c, said) && levels[|levels| - 1] == q
    ensures Fetched(c, allowed, mark) == Some(m) && m.allowed && |m.core.keys| == 1 && !m.core.keys[0].possible
    ensures Settled(if opens then levels + [q] else levels, m.core,
                    said + (if opens then [Plainly(BlockMappingStartToken)] else []) + [Plainly(KeyToken)])
  {
    hide Fetched, IndentsOk, Settled, Pending, MayStart;
    if opens {
      SettledOutside(levels, c, said);
      var r := OpenBlock(levels, c, said, allowed, mark);
      SettledOutside(levels + [q], r, said + [Plainly(BlockMappingStartToken)]);
      FreshAmong(c, r, mark.token.start);
      m := QuestionFetch(levels + [q], r, said + [Plainly(BlockMappingStartToken)], allowed, mark);
      SettledOutside(levels + [q], m.core, said + [Plainly(BlockMappingStartToken)] + [Plainly(KeyToken)]);
    } else {
      PendingOutside(levels, c, said);
      var d := Settle(levels, c, said, allowed, mark);
      SettledOutside(levels, d, said);
      FreshAmong(c, d, mark.token.start);
      m := QuestionFetch(levels, d, said, allowed, mark);
      SettledOutside(levels, m.core, said + [Plainly(KeyToken)]);
      assert said + [] == said;
    }
  }

  /** The colon on a line below the key, and the value. */
  lemma {:induction false} ColonRun(x: Source, q: int, ls: seq<Lexeme>, key: seq<Lexeme>, levels: seq<int>, m: Core, c: Core, allowed: bool, said: seq<Token>)
    returns (a: After)
    requires Pending(levels, c, said) && Quiet(c) && levels[|levels| - 1] == q
    requires KeyAmong(m, c, key) && !m.keys[0].possible
    requires ls != [] && Is(ls[0], AtValue, ValueToken) && ls[0].token.start.column == q && ls[0].newline
    requires Below(ls[0], key) && BlockWritten(x, ls[1..], q, true)
    ensures FetchAll(c, allowed, ls) == Some(a) && Pending(levels, a.core, said + ([Plainly(ValueToken)] + Spelled(x)))
    ensures Quiet(a.core) && KeyAmong(c, a.core, ls)
    decreases x, 4, 0
  {
    hide Fetched, FetchAll, IndentsOk, Settled, Pending, KeyAmong, Spelled, BlockWritten, Below;
    var colon, rest := ls[0], ls[1..];
    assert ls == [colon] + rest;
    PendingOutside(levels, c, said);
    var d := Settle(levels, c, said, allowed, colon);
    SettledOutside(levels, d, said);
    BelowIsStale(m, c, key, colon);
    var n := ColonFetch(levels, d, said, allowed, colon);
    var said1 := said + [Plainly(ValueToken)];
    SettledOutside(levels, n.core, said1);
    a := BlockRun(x, rest, levels, n.core, true, said1);
    FetchAllOne(c, allowed, colon);
    FetchAllThen(c, allowed, [colon], n, rest, ls);
    assert said1 + Spelled(x) == said + ([Plainly(ValueToken)] + Spelled(x));
    PendingOutside(levels, a.core, said1 + Spelled(x));
    NoneAmong(c, n.core, [colon]);
    AmongThen(c, n.core, a.core, [colon], rest);
  }

  lemma BelowIsStale(m: Core, c: Core, key: seq<Lexeme>, x: Lexeme)
    requires KeyAmong(m, c, key) && !m.keys[0].possible && Below(x, key)
    ensures !Fresh(c.keys[0], x.token.start).possible
  {
  }
}
