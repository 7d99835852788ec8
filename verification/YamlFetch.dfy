/**
 What one fetch of the scanner makes of its state: the blocks its column closes, the block or key its token
 opens, and the token itself.
 */
module YamlFetch {
  import opened Wrappers
  import opened YamlTokens
  import opened TokenQueue
  import opened YamlScanCore

  datatype After = After(core: Core, allowed: bool)

  //
  // Closing blocks.
  //

  /** How many of the levels are deeper than the column. */
  function Deeper(levels: seq<int>, column: int): (n: nat)
    ensures n <= |levels|
  {
    if levels == [] then 0
    else Deeper(levels[..|levels| - 1], column) + if levels[|levels| - 1] > column then 1 else 0
  }

  function Levels(c: Core): seq<int> { c.indents + [c.indent] }

  /** Outside flow context every deeper level is left, with one BLOCK-END for each. */
  function Shut(c: Core, column: int, mark: Mark): Core {
    var n := Deeper(Levels(c), column);
    if c.flowLevel > 0 || n > |c.indents| then c
    else
      var kept := |c.indents| - n;
      c.(indents := Levels(c)[..kept], indent := Levels(c)[kept],
         total := c.total + seq(n, _ => PlainToken(BlockEndToken, mark)))
  }

  lemma {:induction false} NoneDeeper(levels: seq<int>, column: int)
    requires forall i | 0 <= i < |levels| :: levels[i] <= column
    ensures Deeper(levels, column) == 0
    decreases |levels|
  {
    if levels != [] { NoneDeeper(levels[..|levels| - 1], column); }
  }

  lemma {:induction false} DeeperAfter(levels: seq<int>, column: int, k: nat)
    requires k < |levels|
    requires forall i | 0 <= i <= k :: levels[i] <= column
    requires forall i | k < i < |levels| :: levels[i] > column
    ensures Deeper(levels, column) == |levels| - 1 - k
    decreases |levels|
  {
    if k == |levels| - 1 {
      NoneDeeper(levels, column);
    } else {
      DeeperAfter(levels[..|levels| - 1], column, k);
    }
  }

  lemma Increasing(c: Core, i: nat, j: nat)
    requires Good(c) && c.started && i < j < |Levels(c)|
    ensures Levels(c)[i] < Levels(c)[j]
  {
    hide KeysOk, Nested, Depth;
  }

  /** Unrolling closes exactly the deeper levels. */
  lemma ShutIs(c: Core, d: Core, column: int, mark: Mark)
    requires Good(c) && c.started
    requires if c.flowLevel > 0 then d == c
             else d.indent <= column && Unrolled(c, d, column, PlainToken(BlockEndToken, mark))
    ensures d == Shut(c, column, mark)
  {
    hide Good, Deeper;
    if c.flowLevel == 0 {
      var levels, k := Levels(c), |d.indents|;
      forall i | 0 <= i <= k ensures levels[i] <= column {
        if i < k { Increasing(c, i, k); }
      }
      DeeperAfter(levels, column, k);
    }
  }

  //
  // Keys and starts.
  //

  predicate KeyDue(c: Core) { LastKeyPossible(c) && c.keys[|c.keys| - 1].required }

  /** The key of the level is given up, unless it is required. */
  function Dropped(c: Core): Option<Core> {
    if KeyDue(c) then None else Some(c.(keys := DroppedKeys(c)))
  }

  /** A key is saved where one is allowed, in place of one that is not required. */
  function Saved(c: Core, allowed: bool, mark: Mark): Option<Core> {
    if c.flowLevel == 0 && c.indent == mark.column && !allowed then None
    else if allowed && KeyDue(c) then None
    else Some(c.(keys := SavedKeys(c, allowed, mark)))
  }

  /** A block is opened where the column is deeper. */
  function Rolled(c: Core, kind: TokenKind, mark: Mark): Core {
    if c.flowLevel == 0 && c.indent < mark.column then
      c.(indents := c.indents + [c.indent], indent := mark.column, total := c.total + [PlainToken(kind, mark)])
    else c
  }

  function Plus(c: Core, t: Token): Core { c.(total := c.total + [t]) }

  /** The possible key is one: KEY, and the start of a mapping where its column is deeper, stand where it began. */
  function Turned(c: Core): Core {
    if !LastKeyPossible(c) || c.keys[|c.keys| - 1].number > |c.total| then c
    else
      var key := c.keys[|c.keys| - 1];
      var opens := c.flowLevel == 0 && c.indent < key.mark.column;
      c.(total := WithKey(c.total, key, opens),
         indents := if opens then c.indents + [c.indent] else c.indents,
         indent := if opens then key.mark.column else c.indent,
         keys := c.keys[|c.keys| - 1 := key.(possible := false)])
  }

  //
  // One lexeme.
  //

  function Reset(c: Core, mark: Mark): Option<Core> { Dropped(Shut(c, -1, mark)) }

  /** The stream ends at the start of a line. */
  function EndMark(mark: Mark): Mark {
    if mark.column != 0 then Mark(mark.index, mark.line + 1, 0) else mark
  }

  function OfStreamEnd(c: Core, mark: Mark): Option<After> {
    match Reset(c, EndMark(mark))
    case None => None
    case Some(d) => Some(After(Plus(d, PlainToken(StreamEndToken, EndMark(mark))), false))
  }

  function OfDirective(c: Core, mark: Mark, x: Lexeme): Option<After> {
    match Reset(c, mark)
    case None => None
    case Some(d) => if x.ok then Some(After(Plus(d, x.token), false)) else None
  }

  function OfIndicator(c: Core, mark: Mark, x: Lexeme): Option<After> {
    match Reset(c, mark)
    case None => None
    case Some(d) => Some(After(Plus(d, x.token), false))
  }

  function OfFlowStart(c: Core, allowed: bool, mark: Mark, x: Lexeme): Option<After> {
    match Saved(c, allowed, mark)
    case None => None
    case Some(d) => Some(After(Plus(d.(keys := d.keys + [NO_KEY], flowLevel := d.flowLevel + 1), x.token), true))
  }

  function OfFlowEnd(c: Core, x: Lexeme): Option<After> {
    match Dropped(c)
    case None => None
    case Some(d) =>
      var e := if c.flowLevel > 0 && c.keys != [] then d.(keys := c.keys[..|c.keys| - 1], flowLevel := c.flowLevel - 1) else d;
      Some(After(Plus(e, x.token), false))
  }

  function OfFlowEntry(c: Core, x: Lexeme): Option<After> {
    match Dropped(c) case None => None case Some(d) => Some(After(Plus(d, x.token), true))
  }

  function OfBlockEntry(c: Core, allowed: bool, mark: Mark, x: Lexeme): Option<After> {
    if c.flowLevel == 0 && !allowed then None
    else
      match Dropped(Rolled(c, BlockSequenceStartToken, mark))
      case None => None
      case Some(d) => Some(After(Plus(d, x.token), true))
  }

  function OfKey(c: Core, allowed: bool, mark: Mark, x: Lexeme): Option<After> {
    if c.flowLevel == 0 && !allowed then None
    else
      match Dropped(Rolled(c, BlockMappingStartToken, mark))
      case None => None
      case Some(d) => Some(After(Plus(d, x.token), c.flowLevel == 0))
  }

  function OfValue(c: Core, allowed: bool, mark: Mark, x: Lexeme): Option<After> {
    if LastKeyPossible(c) then Some(After(Plus(Turned(c), x.token), false))
    else if c.flowLevel == 0 && !allowed then None
    else Some(After(Plus(Rolled(c, BlockMappingStartToken, mark), x.token), c.flowLevel == 0))
  }

  function OfContent(c: Core, allowed: bool, mark: Mark, x: Lexeme): Option<After> {
    match Saved(c, allowed, mark)
    case None => None
    case Some(d) => if x.ok then Some(After(Plus(d, x.token), x.brokenAfter)) else None
  }

  function OfBlockScalar(c: Core, x: Lexeme): Option<After> {
    match Dropped(c)
    case None => None
    case Some(d) => if x.ok then Some(After(Plus(d, x.token), true)) else None
  }

  function Dispatched(c: Core, allowed: bool, mark: Mark, x: Lexeme): Option<After> {
    match x.kind
    case AtStreamEnd => OfStreamEnd(c, mark)
    case AtDirective => OfDirective(c, mark, x)
    case AtDocumentIndicator => OfIndicator(c, mark, x)
    case AtFlowStart => OfFlowStart(c, allowed, mark, x)
    case AtFlowEnd => OfFlowEnd(c, x)
    case AtFlowEntry => OfFlowEntry(c, x)
    case AtBlockEntry => OfBlockEntry(c, allowed, mark, x)
    case AtKey => OfKey(c, allowed, mark, x)
    case AtValue => OfValue(c, allowed, mark, x)
    case AtContent => OfContent(c, allowed, mark, x)
    case AtBlockScalar => OfBlockScalar(c, x)
    case AtNothing => None
  }

  /** Some required key is stale. */
  predicate Overdue(keys: seq<SimpleKey>, mark: Mark) {
    exists i | 0 <= i < |keys| :: keys[i].required && Stale(keys[i], mark)
  }

  function Refreshed(c: Core, mark: Mark): Core {
    c.(keys := seq(|c.keys|, i requires 0 <= i < |c.keys| => Fresh(c.keys[i], mark)))
  }

  /** Stale keys go, deeper blocks are closed, then the lexeme is taken; none when it is refused. */
  function Fetched(c: Core, allowed: bool, x: Lexeme): Option<After> {
    var mark := x.token.start;
    if Overdue(c.keys, mark) then None
    else Dispatched(Shut(Refreshed(c, mark), mark.column, mark), allowed || (x.newline && c.flowLevel == 0), mark, x)
  }

  //
  // What is gained.
  //

  /** The token a lexeme stands for. */
  function Own(x: Lexeme): Token {
    if x.kind.AtStreamEnd? then PlainToken(StreamEndToken, EndMark(x.token.start)) else x.token
  }

  /** The greatest level that is not deeper than the column. */
  function Top(c: Core, column: int): int {
    Levels(c)[|c.indents| - if Deeper(Levels(c), column) > |c.indents| then 0 else Deeper(Levels(c), column)]
  }

  /** The tokens when the blocks deeper than the column are closed. */
  function ShutTotal(c: Core, mark: Mark): seq<Token> {
    if c.flowLevel > 0 then c.total
    else c.total + seq(Deeper(Levels(c), mark.column), _ => PlainToken(BlockEndToken, mark))
  }

  /** At most one token: the start of a block where the column is deeper than the blocks still open. */
  function Start(c: Core, kind: TokenKind, mark: Mark): seq<Token> {
    if c.flowLevel == 0 && Top(c, mark.column) < mark.column then [PlainToken(kind, mark)] else []
  }

  /** A possible key lapses on a later line, or more than 1024 characters on. */
  lemma StaleMeans(key: SimpleKey, mark: Mark)
    ensures Fresh(key, mark).possible <==> key.possible && mark.line <= key.mark.line && mark.index <= key.mark.index + 1024
    ensures Fresh(key, mark).(possible := key.possible) == key
  {
  }

  /**
   At the column of an open block, a token that may be a key must be followed by VALUE on its line: anything
   on a later line is refused.
   */
  lemma KeyNeedsValue(c: Core, allowed: bool, x: Lexeme, y: Lexeme)
    requires Good(c) && c.started && c.flowLevel == 0 && x.kind.AtContent? && Fetched(c, allowed, x).Some?
    requires Top(c, x.token.start.column) == x.token.start.column && y.token.start.line > x.token.start.line
    ensures Fetched(Fetched(c, allowed, x).value.core, Fetched(c, allowed, x).value.allowed, y) == None
  {
    hide Good, Shut, Top, Dispatched, Refreshed;
    var mark := x.token.start;
    FetchedIs(c, allowed, x);
    ShutIsTotal(c, mark);
    var d := Shut(Refreshed(c, mark), mark.column, mark);
    KeysThere(c, d, mark);
    DispatchContent(d, allowed || x.newline, mark, x);
    var e := Fetched(c, allowed, x).value.core;
    assert e.keys[|e.keys| - 1].required && Stale(e.keys[|e.keys| - 1], y.token.start);
    FetchedIs(e, Fetched(c, allowed, x).value.allowed, y);
  }

  lemma KeysThere(c: Core, d: Core, mark: Mark)
    requires Good(c) && c.started && d.keys == Refreshed(c, mark).keys
    ensures d.keys != []
  {
    hide KeysOk, Nested, Depth;
  }

  lemma DispatchContent(d: Core, allowed: bool, mark: Mark, x: Lexeme)
    requires x.kind.AtContent? && d.flowLevel == 0 && d.indent == mark.column && d.keys != [] && Dispatched(d, allowed, mark, x).Some?
    ensures var e := Dispatched(d, allowed, mark, x).value.core;
      e.keys != [] && e.keys[|e.keys| - 1].required && e.keys[|e.keys| - 1].possible && e.keys[|e.keys| - 1].mark == mark
  {
  }

  lemma BaseNotDeeper(c: Core, column: int)
    requires Good(c) && c.started && column >= -1
    ensures Deeper(Levels(c), column) <= |c.indents|
  {
    hide KeysOk, Nested, Depth;
    NotAllDeeper(Levels(c), column);
  }

  lemma {:induction false} NotAllDeeper(levels: seq<int>, column: int)
    requires levels != [] && levels[0] <= column
    ensures Deeper(levels, column) < |levels|
    decreases |levels|
  {
    if |levels| > 1 { NotAllDeeper(levels[..|levels| - 1], column); }
  }

  lemma RefreshedGood(c: Core, mark: Mark)
    requires Good(c)
    ensures Good(Refreshed(c, mark))
  {
    var keys := Refreshed(c, mark).keys;
    forall i | 0 <= i < |keys| && keys[i].possible ensures keys[i] == c.keys[i] { }
    ForgetGood(c, keys);
    hide Good;
  }

  lemma ShutIsTotal(c: Core, mark: Mark)
    requires Good(c) && c.started
    ensures var d := Shut(Refreshed(c, mark), mark.column, mark);
            && d.total == ShutTotal(c, mark) && d.flowLevel == c.flowLevel
            && d.keys == Refreshed(c, mark).keys
            && (c.flowLevel == 0 ==> d.indent == Top(c, mark.column))
  {
    hide Good;
    BaseNotDeeper(c, mark.column);
    assert Levels(Refreshed(c, mark)) == Levels(c);
  }

  /** A key that is not stale, to be turned into one. */
  function PendingKey(c: Core, mark: Mark): Option<SimpleKey> {
    if c.keys == [] then None
    else
      var key := Fresh(c.keys[|c.keys| - 1], mark);
      if key.possible then Some(key) else None
  }

  /** KEY where the key began, behind the start of a mapping where its column is deeper than the blocks still open. */
  function KeyTokens(c: Core, key: SimpleKey, mark: Mark): seq<Token> {
    (if c.flowLevel == 0 && Top(c, mark.column) < key.mark.column then [PlainToken(BlockMappingStartToken, key.mark)] else [])
    + [PlainToken(KeyToken, key.mark)]
  }

  lemma WithKeyIs(total: seq<Token>, key: SimpleKey, opens: bool)
    requires key.number <= |total|
    ensures WithKey(total, key, opens)
      == total[..key.number]
         + ((if opens then [PlainToken(BlockMappingStartToken, key.mark)] else []) + [PlainToken(KeyToken, key.mark)])
         + total[key.number..]
  {
    var n := key.number;
    var keyed := Inserted(total, n, PlainToken(KeyToken, key.mark));
    assert keyed[..n] == total[..n] && keyed[n..] == [PlainToken(KeyToken, key.mark)] + total[n..];
  }

  /**
   Exactly the tokens gained by a lexeme that does not end the document: one BLOCK-END for each level deeper
   than its column, at most one start of a block or a KEY where a simple key began, and its own token.
   */
  lemma FetchGains(c: Core, allowed: bool, x: Lexeme)
    requires Good(c) && c.started && Fetched(c, allowed, x).Some?
    requires !x.kind.AtStreamEnd? && !x.kind.AtDirective? && !x.kind.AtDocumentIndicator?
    ensures var mark, total := x.token.start, Fetched(c, allowed, x).value.core.total;
      var shut, key := ShutTotal(c, mark), PendingKey(c, mark);
      if x.kind.AtValue? && key.Some? then
        && key.value.number < |c.total| <= |shut|
        && total == shut[..key.value.number] + KeyTokens(c, key.value, mark) + shut[key.value.number..] + [Own(x)]
      else if x.kind.AtBlockEntry? then total == shut + Start(c, BlockSequenceStartToken, mark) + [Own(x)]
      else if x.kind.AtKey? || x.kind.AtValue? then total == shut + Start(c, BlockMappingStartToken, mark) + [Own(x)]
      else total == shut + [Own(x)]
  {
    hide Good, Fresh, Shut, Top, Dispatched, Overdue, LastKeyPossible, WithKey, ShutTotal;
    var mark := x.token.start;
    var r := Refreshed(c, mark);
    RefreshedGood(c, mark);
    ShutIsTotal(c, mark);
    ShutGrows(c, mark);
    var d := Shut(r, mark.column, mark);
    LastFresh(c, d, mark);
    if LastKeyPossible(d) {
      KeyBefore(c, r, d);
      WithKeyIs(d.total, d.keys[|d.keys| - 1], d.flowLevel == 0 && d.indent < d.keys[|d.keys| - 1].mark.column);
    }
    DispatchGains(d, allowed || (x.newline && c.flowLevel == 0), mark, x);
  }

  lemma ShutGrows(c: Core, mark: Mark)
    ensures |c.total| <= |ShutTotal(c, mark)|
  {
  }

  lemma LastFresh(c: Core, d: Core, mark: Mark)
    requires d.keys == Refreshed(c, mark).keys
    ensures LastKeyPossible(d) <==> PendingKey(c, mark).Some?
    ensures LastKeyPossible(d) ==> d.keys[|d.keys| - 1] == PendingKey(c, mark).value
  {
  }

  lemma DispatchGains(d: Core, allowed: bool, mark: Mark, x: Lexeme)
    requires Dispatched(d, allowed, mark, x).Some? && mark == x.token.start
    requires LastKeyPossible(d) ==> d.keys[|d.keys| - 1].number <= |d.total|
    requires !x.kind.AtStreamEnd? && !x.kind.AtDirective? && !x.kind.AtDocumentIndicator?
    ensures var total, deeper := Dispatched(d, allowed, mark, x).value.core.total, d.flowLevel == 0 && d.indent < mark.column;
      if x.kind.AtValue? && LastKeyPossible(d) then
        var key := d.keys[|d.keys| - 1];
        total == WithKey(d.total, key, d.flowLevel == 0 && d.indent < key.mark.column) + [Own(x)]
      else if x.kind.AtBlockEntry? then
        total == d.total + (if deeper then [PlainToken(BlockSequenceStartToken, mark)] else []) + [Own(x)]
      else if x.kind.AtKey? || x.kind.AtValue? then
        total == d.total + (if deeper then [PlainToken(BlockMappingStartToken, mark)] else []) + [Own(x)]
      else total == d.total + [Own(x)]
  {
    hide WithKey, KeyDue, DroppedKeys, SavedKeys;
    assert d.total + [] == d.total;
  }

  lemma KeyBefore(c: Core, r: Core, d: Core)
    requires Good(r) && r.total == c.total && r.keys == d.keys && LastKeyPossible(d)
    ensures d.keys[|d.keys| - 1].number < |c.total|
  {
    hide Nested, Depth, IndentsOk;
  }

  /** A lexeme that ends the document closes every block. */
  lemma EndGains(c: Core, allowed: bool, x: Lexeme)
    requires Good(c) && c.started && Fetched(c, allowed, x).Some? && c.flowLevel == 0
    requires x.kind.AtStreamEnd? || x.kind.AtDirective? || x.kind.AtDocumentIndicator?
    ensures var total := Fetched(c, allowed, x).value.core.total;
      && |total| == |c.total| + |c.indents| + 1 && c.total <= total && total[|total| - 1] == Own(x)
      && (forall i | |c.total| <= i < |total| - 1 :: total[i].kind.BlockEndToken?)
      && Fetched(c, allowed, x).value.core.indents == []
  {
    hide Good, Fresh, Overdue, KeyDue, DroppedKeys, Shut, Deeper, Refreshed;
    var mark := x.token.start;
    var r := Refreshed(c, mark);
    var d := Shut(r, mark.column, mark);
    var at := if x.kind.AtStreamEnd? then EndMark(mark) else mark;
    ShutTwice(c, mark, at);
    assert Reset(d, at).Some?;
  }

  /** Closing by the column, then all the rest, closes every block. */
  lemma ShutTwice(c: Core, mark: Mark, at: Mark)
    requires Good(c) && c.started && c.flowLevel == 0
    ensures var e := Shut(Shut(Refreshed(c, mark), mark.column, mark), -1, at);
      && e.indents == [] && |e.total| == |c.total| + |c.indents| && c.total <= e.total
      && forall i | |c.total| <= i < |e.total| :: e.total[i].kind.BlockEndToken?
  {
    hide Good;
    var r := Refreshed(c, mark);
    RefreshedGood(c, mark);
    assert Levels(r) == Levels(c);
    BaseNotDeeper(r, mark.column);
    var n := Deeper(Levels(c), mark.column);
    var d := Shut(r, mark.column, mark);
    assert |d.indents| == |c.indents| - n && Levels(d) == Levels(c)[..|d.indents| + 1];
    AllDeeper(c, |d.indents|);
  }

  /** Every saved level but the base is deeper than -1. */
  lemma AllDeeper(c: Core, k: nat)
    requires Good(c) && c.started && k <= |c.indents|
    ensures Deeper(Levels(c)[..k + 1], -1) == k
  {
    var levels := Levels(c)[..k + 1];
    forall i | 0 < i < |levels| ensures levels[i] > -1 {
      Increasing(c, 0, i);
    }
    assert levels[0] == -1;
    DeeperAfter(levels, -1, 0);
    hide Good;
  }

  //
  // The order of tokens.
  //

  function Owns(xs: seq<Lexeme>): seq<Token> {
    if xs == [] then [] else Owns(xs[..|xs| - 1]) + [Own(xs[|xs| - 1])]
  }

  /** STREAM-START, then the tokens of the lexemes in order. */
  function Streamed(xs: seq<Lexeme>): seq<Token> {
    [PlainToken(StreamStartToken, Mark(0, 0, 0))] + Owns(xs)
  }

  lemma StreamedSnoc(xs: seq<Lexeme>, n: nat)
    requires n < |xs|
    ensures Streamed(xs[..n + 1]) == Streamed(xs[..n]) + [Own(xs[n])]
  {
    assert xs[..n + 1][..n] == xs[..n];
  }

  lemma StartWoven(xs: seq<Lexeme>)
    ensures Woven(Streamed([]), Streamed(xs[..0]))
  {
    assert xs[..0] == [] && Streamed([])[..0] == [] && Woven([], []);
  }

  /** A token that stands for no lexeme. */
  predicate Structural(t: Token) {
    t.kind.BlockSequenceStartToken? || t.kind.BlockMappingStartToken? || t.kind.BlockEndToken? || t.kind.KeyToken?
  }

  /** Leaving out some structural tokens, `total` is `own`. */
  ghost predicate Woven(total: seq<Token>, own: seq<Token>)
    decreases |total|
  {
    if total == [] then own == []
    else
      var n, t := |total| - 1, total[|total| - 1];
      || (own != [] && own[|own| - 1] == t && Woven(total[..n], own[..|own| - 1]))
      || (Structural(t) && Woven(total[..n], own))
  }

  lemma WovenAppend(total: seq<Token>, own: seq<Token>, t: Token)
    requires Woven(total, own)
    ensures Woven(total + [t], own + [t])
  {
    assert (total + [t])[..|total|] == total && (own + [t])[..|own|] == own;
  }

  lemma WovenExtra(total: seq<Token>, own: seq<Token>, t: Token)
    requires Woven(total, own) && Structural(t)
    ensures Woven(total + [t], own)
  {
    assert (total + [t])[..|total|] == total;
  }

  lemma {:induction false} WovenEnds(total: seq<Token>, own: seq<Token>, n: nat, t: Token)
    requires Woven(total, own) && Structural(t)
    ensures Woven(total + seq(n, _ => t), own)
    decreases n
  {
    if n == 0 {
      assert total + seq(0, _ => t) == total;
    } else {
      WovenEnds(total, own, n - 1, t);
      WovenExtra(total + seq(n - 1, _ => t), own, t);
      assert total + seq(n, _ => t) == total + seq(n - 1, _ => t) + [t];
    }
  }

  lemma {:induction false} WovenInsert(total: seq<Token>, own: seq<Token>, n: nat, t: Token)
    requires Woven(total, own) && Structural(t) && n <= |total|
    ensures Woven(Inserted(total, n, t), own)
    decreases |total| - n
  {
    hide Inserted, Structural;
    InsertedLast(total, n, t);
    if n == |total| {
      WovenExtra(total, own, t);
    } else {
      var m := |total| - 1;
      var init, last := total[..m], total[m];
      if own != [] && own[|own| - 1] == last && Woven(init, own[..|own| - 1]) {
        WovenInsert(init, own[..|own| - 1], n, t);
        WovenAppend(Inserted(init, n, t), own[..|own| - 1], last);
        assert own == own[..|own| - 1] + [last];
      } else {
        WovenInsert(init, own, n, t);
        WovenExtra(Inserted(init, n, t), own, last);
      }
    }
  }

  lemma InsertedLast(ts: seq<Token>, n: nat, t: Token)
    requires n <= |ts|
    ensures n == |ts| ==> Inserted(ts, n, t) == ts + [t]
    ensures n < |ts| ==> Inserted(ts, n, t) == Inserted(ts[..|ts| - 1], n, t) + [ts[|ts| - 1]]
  {
  }

  lemma WovenShut(c: Core, column: int, mark: Mark, own: seq<Token>)
    requires Woven(c.total, own)
    ensures Woven(Shut(c, column, mark).total, own)
  {
    hide Woven, Deeper;
    WovenEnds(c.total, own, Deeper(Levels(c), column), PlainToken(BlockEndToken, mark));
  }

  lemma WovenTurned(c: Core, own: seq<Token>)
    requires Woven(c.total, own)
    ensures Woven(Turned(c).total, own)
  {
    hide Woven, Inserted;
    if LastKeyPossible(c) && c.keys[|c.keys| - 1].number <= |c.total| {
      var key := c.keys[|c.keys| - 1];
      var keyed := Inserted(c.total, key.number, PlainToken(KeyToken, key.mark));
      WovenInsert(c.total, own, key.number, PlainToken(KeyToken, key.mark));
      InsertedLonger(c.total, key.number, PlainToken(KeyToken, key.mark));
      WovenInsert(keyed, own, key.number, PlainToken(BlockMappingStartToken, key.mark));
    }
  }

  lemma InsertedLonger(ts: seq<Token>, n: nat, t: Token)
    requires n <= |ts|
    ensures |Inserted(ts, n, t)| == |ts| + 1
  {
  }

  lemma WovenRolled(c: Core, kind: TokenKind, mark: Mark, own: seq<Token>)
    requires Woven(c.total, own) && (kind.BlockSequenceStartToken? || kind.BlockMappingStartToken?)
    ensures Woven(Rolled(c, kind, mark).total, own)
  {
    hide Woven;
    WovenExtra(c.total, own, PlainToken(kind, mark));
  }

  /** A fetch adds the token of its lexeme behind those before it, and otherwise only structural tokens. */
  lemma FetchWeaves(c: Core, allowed: bool, x: Lexeme, own: seq<Token>)
    requires Woven(c.total, own) && Fetched(c, allowed, x).Some?
    ensures Woven(Fetched(c, allowed, x).value.core.total, own + [Own(x)])
  {
    hide Woven, Shut, Turned, Rolled, Overdue, KeyDue, DroppedKeys, SavedKeys, LastKeyPossible, EndMark;
    var mark := x.token.start;
    var r := Refreshed(c, mark);
    var d := Shut(r, mark.column, mark);
    WovenShut(r, mark.column, mark, own);
    WovenShut(d, -1, EndMark(mark), own);
    WovenShut(d, -1, mark, own);
    WovenTurned(d, own);
    WovenRolled(d, BlockSequenceStartToken, mark, own);
    WovenRolled(d, BlockMappingStartToken, mark, own);
    DispatchWeaves(d, allowed || (x.newline && c.flowLevel == 0), mark, x, own);
  }

  lemma DispatchWeaves(d: Core, allowed: bool, mark: Mark, x: Lexeme, own: seq<Token>)
    requires mark == x.token.start && Dispatched(d, allowed, mark, x).Some?
    requires Woven(d.total, own) && Woven(Shut(d, -1, EndMark(mark)).total, own) && Woven(Shut(d, -1, mark).total, own)
    requires Woven(Turned(d).total, own) && Woven(Rolled(d, BlockSequenceStartToken, mark).total, own)
    requires Woven(Rolled(d, BlockMappingStartToken, mark).total, own)
    ensures Woven(Dispatched(d, allowed, mark, x).value.core.total, own + [Own(x)])
  {
    hide Woven, Shut, Turned, Rolled, KeyDue, DroppedKeys, SavedKeys, LastKeyPossible, EndMark;
    match x.kind {
      case AtStreamEnd => WovenAppend(Shut(d, -1, EndMark(mark)).total, own, Own(x));
      case AtDirective => WovenAppend(Shut(d, -1, mark).total, own, Own(x));
      case AtDocumentIndicator => WovenAppend(Shut(d, -1, mark).total, own, Own(x));
      case AtBlockEntry => WovenAppend(Rolled(d, BlockSequenceStartToken, mark).total, own, Own(x));
      case AtKey => WovenAppend(Rolled(d, BlockMappingStartToken, mark).total, own, Own(x));
      case AtValue =>
        WovenAppend(Turned(d).total, own, Own(x));
        WovenAppend(Rolled(d, BlockMappingStartToken, mark).total, own, Own(x));
      case _ => WovenAppend(d.total, own, Own(x));
    }
  }

  /** Leaving out starts and ends of blocks and KEYs, the tokens are STREAM-START and those of the first `n` lexemes. */
  ghost predicate Ordered(total: seq<Token>, xs: seq<Lexeme>, n: nat, started: bool, mark: Mark) {
    && n <= |xs|
    && if started then Woven(total, Streamed(xs[..n])) else n == 0 && mark == Mark(0, 0, 0) && total == []
  }

  lemma OrderedStart(xs: seq<Lexeme>, total: seq<Token>, n: nat, mark: Mark)
    requires Ordered(total, xs, n, false, mark)
    ensures n == 0 && total == [] && Ordered([PlainToken(StreamStartToken, mark)], xs, n, true, mark)
  {
    StartWoven(xs);
    assert Streamed([]) == [PlainToken(StreamStartToken, mark)] + [];
    hide Woven;
  }

  lemma OrderedStep(xs: seq<Lexeme>, n: nat, c: Core, allowed: bool, after: After, was: Mark, mark: Mark)
    requires n < |xs| && Ordered(c.total, xs, n, true, was) && Fetched(c, allowed, xs[n]) == Some(after)
    ensures Ordered(after.core.total, xs, n + 1, true, mark)
  {
    hide Woven, Fetched;
    FetchWeaves(c, allowed, xs[n], Streamed(xs[..n]));
    StreamedSnoc(xs, n);
  }

  lemma FetchedIs(c: Core, allowed: bool, x: Lexeme)
    ensures Overdue(c.keys, x.token.start) ==> Fetched(c, allowed, x) == None
    ensures !Overdue(c.keys, x.token.start) ==>
      var mark := x.token.start;
      Fetched(c, allowed, x)
      == Dispatched(Shut(Refreshed(c, mark), mark.column, mark), allowed || (x.newline && c.flowLevel == 0), mark, x)
  {
    hide Overdue, Dispatched, Shut, Refreshed;
  }
}
