/**
 The state of the token scanner as a value: possible simple keys, saved indentation and the tokens produced,
 what holds of it between fetches, and what each fetch makes of it.

 One lexeme stands for what the character level finds after skipping blanks and comments: the kind of token,
 where it starts and ends, whether a line break was skipped before it, and whether its content was well
 formed.
 */
module YamlScanCore {
  import opened Wrappers
  import opened YamlEvents
  import opened YamlTokens
  import opened TokenQueue

  /** How the dispatcher treats what it finds. */
  datatype Kind =
    | AtStreamEnd | AtDirective | AtDocumentIndicator
    | AtFlowStart | AtFlowEnd | AtFlowEntry | AtBlockEntry | AtKey | AtValue
    | AtContent      // an alias, an anchor, a tag, or a flow or plain scalar
    | AtBlockScalar
    | AtNothing      // no token starts here

  /** `token.start` is the mark at which the lexeme begins, `end` the mark after it. */
  datatype RawLexeme = Lexeme(kind: Kind, token: Token, end: Mark, newline: bool, ok: bool, brokenAfter: bool)

  /** Only in a plain scalar can a line break have been consumed after the last of its text. */
  predicate KindOk(l: RawLexeme) {
    var k := l.token.kind;
    (l.brokenAfter ==> l.kind.AtContent? && k.ScalarToken? && l.token.style.Plain?) &&
    match l.kind
    case AtStreamEnd => k.StreamEndToken?
    case AtDirective => k.VersionDirectiveToken? || k.TagDirectiveToken?
    case AtDocumentIndicator => k.DocumentStartToken? || k.DocumentEndToken?
    case AtFlowStart => k.FlowSequenceStartToken? || k.FlowMappingStartToken?
    case AtFlowEnd => k.FlowSequenceEndToken? || k.FlowMappingEndToken?
    case AtFlowEntry => k.FlowEntryToken?
    case AtBlockEntry => k.BlockEntryToken?
    case AtKey => k.KeyToken?
    case AtValue => k.ValueToken?
    case AtContent => k.AliasToken? || k.AnchorToken? || k.TagToken? || k.ScalarToken?
    case AtBlockScalar => k.ScalarToken?
    case AtNothing => k.ScalarToken?
  }

  type Lexeme = l: RawLexeme | KindOk(l)
    witness Lexeme(AtStreamEnd, PlainToken(StreamEndToken, Mark(0, 0, 0)), Mark(0, 0, 0), false, true, false)

  datatype SimpleKey = SimpleKey(possible: bool, required: bool, number: nat, mark: Mark)

  const NO_KEY := SimpleKey(false, false, 0, Mark(0, 0, 0))

  datatype Problem = Unfinished | KeyExpected | EntryNotAllowed | KeyNotAllowed | ValueNotAllowed | BadContent | Panicked

  function PlainToken(kind: TokenKind, start: Mark): Token {
    Token(kind, start, [], [], [], 0, 0, AnyStyle)
  }

  //
  // Nesting of block collections.
  //

  function Change(t: Token): int {
    match t.kind
    case BlockSequenceStartToken => 1
    case BlockMappingStartToken => 1
    case BlockEndToken => -1
    case _ => 0
  }

  /** BLOCK-SEQUENCE-START and BLOCK-MAPPING-START minus BLOCK-END. */
  function Depth(ts: seq<Token>): int {
    if ts == [] then 0 else Depth(ts[..|ts| - 1]) + Change(ts[|ts| - 1])
  }

  /** No BLOCK-END without its start. */
  ghost predicate Nested(ts: seq<Token>) { forall n | 0 <= n <= |ts| :: Depth(ts[..n]) >= 0 }

  lemma {:induction false} DepthConcat(a: seq<Token>, b: seq<Token>)
    ensures Depth(a + b) == Depth(a) + Depth(b)
    decreases |b|
  {
    if b == [] {
      assert a + b == a;
    } else {
      assert (a + b)[..|a + b| - 1] == a + b[..|b| - 1];
      DepthConcat(a, b[..|b| - 1]);
    }
  }

  lemma InsertDepth(ts: seq<Token>, n: nat, t: Token)
    requires n <= |ts|
    ensures Depth(Inserted(ts, n, t)) == Depth(ts) + Change(t)
  {
    hide Depth, Change;
    assert ts == ts[..n] + ts[n..];
    DepthOne(t);
    DepthConcat(ts[..n], ts[n..]);
    DepthConcat(ts[..n], [t]);
    DepthConcat(ts[..n] + [t], ts[n..]);
  }

  lemma DepthOne(t: Token)
    ensures Depth([t]) == Change(t) && Depth([]) == 0
  {
  }

  /** Inserting a token that does not close a block keeps the nesting. */
  lemma InsertNests(ts: seq<Token>, n: nat, t: Token)
    requires n <= |ts| && Nested(ts)
    requires Change(t) >= 0 || (n == |ts| && Depth(ts) > 0)
    ensures Nested(Inserted(ts, n, t))
    ensures Depth(Inserted(ts, n, t)) == Depth(ts) + Change(t)
  {
    hide Depth, Inserted;
    var r := Inserted(ts, n, t);
    InsertDepth(ts, n, t);
    InsertedPrefix(ts, n, t, 0);
    forall m | 0 <= m <= |r| ensures Depth(r[..m]) >= 0 {
      InsertedPrefix(ts, n, t, m);
      if m > n {
        InsertDepth(ts[..m - 1], n, t);
        if n == |ts| { assert ts[..m - 1] == ts; }
      }
    }
  }

  lemma InsertedPrefix(ts: seq<Token>, n: nat, t: Token, m: nat)
    requires n <= |ts| && m <= |ts| + 1
    ensures |Inserted(ts, n, t)| == |ts| + 1
    ensures Inserted(ts, n, t)[..m] == if m <= n then ts[..m] else Inserted(ts[..m - 1], n, t)
  {
  }

  //
  // Simple keys.
  //

  /**
   Every possible simple key names a token that is still undelivered and starts where the key was seen, and
   keys of inner flow levels name later tokens.
   */
  ghost predicate KeysOk(keys: seq<SimpleKey>, parsed: nat, total: seq<Token>) {
    && (forall i | 0 <= i < |keys| && keys[i].possible ::
          parsed <= keys[i].number < |total| && total[keys[i].number].start == keys[i].mark)
    && (forall i, j | 0 <= i < j < |keys| && keys[i].possible && keys[j].possible :: keys[i].number < keys[j].number)
  }

  /** A stand-in for the token about to be appended at `mark`. */
  function AtMark(mark: Mark): Token { PlainToken(StreamStartToken, mark) }

  /** Only the starts of the tokens matter to the keys. */
  lemma KeysBySameStarts(keys: seq<SimpleKey>, parsed: nat, total: seq<Token>, t: Token, u: Token)
    requires KeysOk(keys, parsed, total + [t]) && t.start == u.start
    ensures KeysOk(keys, parsed, total + [u])
  {
  }

  lemma KeysExtend(keys: seq<SimpleKey>, parsed: nat, total: seq<Token>, t: Token)
    requires KeysOk(keys, parsed, total)
    ensures KeysOk(keys, parsed, total + [t])
  {
  }

  /** A token inserted where the innermost key is, starting where that key starts, keeps every key valid. */
  lemma InsertAtKey(keys: seq<SimpleKey>, parsed: nat, total: seq<Token>, t: Token)
    requires KeysOk(keys, parsed, total) && keys != []
    requires var key := keys[|keys| - 1]; key.possible && t.start == key.mark
    ensures KeysOk(keys, parsed, Inserted(total, keys[|keys| - 1].number, t))
  {
  }

  /** Forgetting keys is always safe. */
  lemma ForgetKeys(keys: seq<SimpleKey>, keys': seq<SimpleKey>, parsed: nat, total: seq<Token>)
    requires KeysOk(keys, parsed, total) && |keys'| <= |keys|
    requires forall i | 0 <= i < |keys'| && keys'[i].possible :: keys'[i] == keys[i]
    ensures KeysOk(keys', parsed, total)
  {
  }

  /** A new innermost key for the token about to be appended. */
  lemma SaveKey(keys: seq<SimpleKey>, parsed: nat, total: seq<Token>, key: SimpleKey)
    requires KeysOk(keys, parsed, total) && keys != [] && parsed <= |total|
    requires key.number == |total|
    ensures KeysOk(keys[|keys| - 1 := key], parsed, total + [AtMark(key.mark)])
  {
  }

  /** Saved indentation levels strictly increase from -1 up to the current one. */
  ghost predicate IndentsOk(indents: seq<int>, indent: int) {
    && (indents == [] ==> indent == -1)
    && (indents != [] ==> indents[0] == -1 && indents[|indents| - 1] < indent)
    && (forall i, j | 0 <= i < j < |indents| :: indents[i] < indents[j])
  }

  //
  // The scanner's state as a value.
  //

  /** `total` is every token produced so far, of which `parsed` have been delivered. */
  datatype Core = Core(keys: seq<SimpleKey>, parsed: nat, total: seq<Token>, indents: seq<int>, indent: int,
                       flowLevel: nat, started: bool)

  ghost predicate Structured(c: Core) {
    && c.parsed <= |c.total|
    && Nested(c.total) && Depth(c.total) == |c.indents|
    && (c.started ==> |c.keys| == c.flowLevel + 1 && IndentsOk(c.indents, c.indent))
    && (!c.started ==> c.keys == [] && c.indents == [] && c.flowLevel == 0 && c.total == [])
  }

  /** What holds between fetches, on every run. */
  ghost predicate Good(c: Core) { Structured(c) && KeysOk(c.keys, c.parsed, c.total) }

  /** What holds when a token that starts at `start` is about to be appended. */
  ghost predicate Ready(c: Core, start: Mark) { Structured(c) && KeysOk(c.keys, c.parsed, c.total + [AtMark(start)]) }

  lemma GoodReady(c: Core, start: Mark)
    requires Good(c)
    ensures Ready(c, start)
  {
    hide Depth, Nested;
  }

  lemma AppendGood(c: Core, t: Token)
    requires Ready(c, t.start) && c.started && Change(t) == 0
    ensures Good(c.(total := Inserted(c.total, |c.total|, t)))
    ensures Inserted(c.total, |c.total|, t) == c.total + [t]
  {
    KeysBySameStarts(c.keys, c.parsed, c.total, AtMark(t.start), t);
    InsertNests(c.total, |c.total|, t);
    assert Inserted(c.total, |c.total|, t) == c.total + [t];
    hide Depth, Nested, KeysOk;
  }

  lemma ForgetGood(c: Core, keys: seq<SimpleKey>)
    requires Good(c) && |keys| == |c.keys|
    requires forall i | 0 <= i < |keys| && keys[i].possible :: keys[i] == c.keys[i]
    ensures Good(c.(keys := keys))
  {
    ForgetKeys(c.keys, keys, c.parsed, c.total);
    hide Depth, Nested, KeysOk;
  }

  lemma LeaveFlow(c: Core)
    requires Good(c) && c.started && c.flowLevel > 0
    ensures Good(c.(keys := c.keys[..|c.keys| - 1], flowLevel := c.flowLevel - 1))
  {
    ForgetKeys(c.keys, c.keys[..|c.keys| - 1], c.parsed, c.total);
    hide Depth, Nested, KeysOk;
  }

  lemma EnterFlow(c: Core, start: Mark)
    requires Ready(c, start) && c.started
    ensures Ready(c.(keys := c.keys + [NO_KEY], flowLevel := c.flowLevel + 1), start)
  {
    hide Depth, Nested;
  }

  lemma SaveReady(c: Core, key: SimpleKey)
    requires Good(c) && c.started && key.number == |c.total|
    ensures Ready(c.(keys := c.keys[|c.keys| - 1 := key]), key.mark)
  {
    SaveKey(c.keys, c.parsed, c.total, key);
    hide Depth, Nested, KeysOk;
  }

  lemma RollGood(c: Core, column: int, t: Token)
    requires Good(c) && c.started && c.indent < column && Change(t) == 1
    ensures Good(c.(total := Inserted(c.total, |c.total|, t), indents := c.indents + [c.indent], indent := column))
    ensures Inserted(c.total, |c.total|, t) == c.total + [t]
  {
    KeysExtend(c.keys, c.parsed, c.total, t);
    InsertNests(c.total, |c.total|, t);
    assert Inserted(c.total, |c.total|, t) == c.total + [t];
    hide Depth, Nested, KeysOk;
  }

  lemma UnrollGood(c: Core, t: Token)
    requires Good(c) && c.started && c.indents != [] && t.kind.BlockEndToken?
    ensures Good(c.(total := Inserted(c.total, |c.total|, t), indents := c.indents[..|c.indents| - 1],
                    indent := c.indents[|c.indents| - 1]))
  {
    KeysExtend(c.keys, c.parsed, c.total, t);
    InsertNests(c.total, |c.total|, t);
    assert Inserted(c.total, |c.total|, t) == c.total + [t];
    hide Depth, Nested, KeysOk;
  }

  /**
   From `c` to `c'` the deepest levels have been closed, each of them deeper than `column`, and one END for
   each has been appended.
   */
  ghost predicate Unrolled(c: Core, c': Core, column: int, end: Token) {
    var levels, kept := c.indents + [c.indent], |c'.indents|;
    && kept <= |c.indents|
    && c' == c.(indents := c'.indents, indent := c'.indent, total := c'.total)
    && c'.indents == levels[..kept] && c'.indent == levels[kept]
    && (forall i | kept < i < |levels| :: levels[i] > column)
    && c'.total == c.total + seq(|c.indents| - kept, _ => end)
  }

  lemma NoneUnrolled(c: Core, column: int, end: Token)
    ensures Unrolled(c, c, column, end)
  {
    assert c.total + seq(0, _ => end) == c.total;
  }

  lemma UnrollOne(c: Core, m: Core, column: int, end: Token)
    requires Unrolled(c, m, column, end) && m.indent > column && m.indents != []
    ensures Unrolled(c, m.(total := Inserted(m.total, |m.total|, end), indents := m.indents[..|m.indents| - 1],
                           indent := m.indents[|m.indents| - 1]), column, end)
  {
    assert Inserted(m.total, |m.total|, end) == m.total + [end];
    var n := |c.indents| - |m.indents|;
    assert seq(n + 1, _ => end) == seq(n, _ => end) + [end];
  }

  /** One BLOCK-END for each block that is open. */
  function BlockEnds(c: Core, mark: Mark): seq<Token> { seq(|c.indents|, _ => PlainToken(BlockEndToken, mark)) }

  lemma AllUnrolled(c: Core, c': Core, mark: Mark)
    requires Good(c') && c'.started && c'.indent <= -1 && Unrolled(c, c', -1, PlainToken(BlockEndToken, mark))
    ensures c'.indents == [] && c'.total == c.total + BlockEnds(c, mark)
  {
    hide KeysOk, Nested, Depth;
  }

  /** The start token of the block collection that a token at `mark` opens, if it opens one. */
  function Opened(c: Core, mark: Mark, kind: TokenKind): seq<Token> {
    if c.flowLevel == 0 && c.indent < mark.column then [PlainToken(kind, mark)] else []
  }

  lemma NotStarted(c: Core)
    requires Good(c) && !c.started
    ensures c == Core([], c.parsed, [], [], c.indent, 0, false) && c.parsed == 0
    ensures Good(Core([NO_KEY], 0, [], [], -1, 0, true))
  {
  }

  lemma SomeIndent(c: Core)
    requires Good(c) && c.started && c.indent > -1
    ensures c.indents != []
  {
    hide KeysOk, Nested, Depth;
  }

  /** The tokens once a possible key has turned out to be a key. */
  function WithKey(total: seq<Token>, key: SimpleKey, opens: bool): seq<Token>
    requires key.number <= |total|
  {
    var keyed := Inserted(total, key.number, PlainToken(KeyToken, key.mark));
    if opens then Inserted(keyed, key.number, PlainToken(BlockMappingStartToken, key.mark)) else keyed
  }

  lemma TurnGood(c: Core, opens: bool)
    requires Good(c) && c.started
    requires c.keys[|c.keys| - 1].possible
    requires opens ==> c.indent < c.keys[|c.keys| - 1].mark.column
    ensures var key := c.keys[|c.keys| - 1];
            && c.parsed <= key.number < |c.total|
            && Good(c.(total := WithKey(c.total, key, opens),
                       indents := if opens then c.indents + [c.indent] else c.indents,
                       indent := if opens then key.mark.column else c.indent,
                       keys := c.keys[|c.keys| - 1 := key.(possible := false)]))
  {
    var key := c.keys[|c.keys| - 1];
    var k, b := PlainToken(KeyToken, key.mark), PlainToken(BlockMappingStartToken, key.mark);
    InsertNests(c.total, key.number, k);
    InsertAtKey(c.keys, c.parsed, c.total, k);
    var keyed := Inserted(c.total, key.number, k);
    if opens {
      InsertNests(keyed, key.number, b);
      InsertAtKey(c.keys, c.parsed, keyed, b);
    }
    ForgetKeys(c.keys, c.keys[|c.keys| - 1 := key.(possible := false)], c.parsed, WithKey(c.total, key, opens));
    hide Depth, Nested, KeysOk;
  }

  lemma DeliverGood(c: Core)
    requires Good(c) && c.parsed < |c.total|
    requires forall i | 0 <= i < |c.keys| :: !(c.keys[i].possible && c.keys[i].number == c.parsed)
    ensures Good(c.(parsed := c.parsed + 1))
  {
    hide Depth, Nested;
  }

  predicate LastKeyPossible(c: Core) { c.keys != [] && c.keys[|c.keys| - 1].possible }

  /** As many blocks are open in the tokens as levels are saved. */
  lemma BlocksOpen(c: Core)
    requires Good(c)
    ensures Depth(c.total) == |c.indents|
  {
  }

  lemma WithKeyKeeps(total: seq<Token>, key: SimpleKey, opens: bool, n: nat)
    requires n <= key.number <= |total|
    ensures |WithKey(total, key, opens)| >= n && WithKey(total, key, opens)[..n] == total[..n]
  {
  }

  lemma SnocKeeps(total: seq<Token>, t: Token, n: nat)
    requires n <= |total|
    ensures (total + [t])[..n] == total[..n]
  {
  }

  /** The key of the current level given up. */
  function DroppedKeys(c: Core): seq<SimpleKey> {
    if c.keys == [] then [] else c.keys[|c.keys| - 1 := c.keys[|c.keys| - 1].(possible := false)]
  }

  lemma DroppedByKeys(c: Core, d: Core)
    requires c.keys == d.keys
    ensures DroppedKeys(c) == DroppedKeys(d) && LastKeyPossible(c) == LastKeyPossible(d)
    ensures c.keys != [] ==> |DroppedKeys(c)| == |c.keys| && DroppedKeys(c)[..|c.keys| - 1] == c.keys[..|c.keys| - 1]
  {
  }

  /** The key of the current level, where one is allowed, for the token about to be appended at `mark`. */
  function SavedKeys(c: Core, allowed: bool, mark: Mark): seq<SimpleKey> {
    if c.keys == [] || !allowed then c.keys
    else c.keys[|c.keys| - 1 := SimpleKey(true, c.flowLevel == 0 && c.indent == mark.column, |c.total|, mark)]
  }

  lemma SomeKey(c: Core)
    requires Good(c) && c.started
    ensures c.keys != [] && c.parsed <= |c.total|
  {
  }

  predicate Stale(key: SimpleKey, mark: Mark) {
    key.possible && (key.mark.line < mark.line || key.mark.index + 1024 < mark.index)
  }

  function Fresh(key: SimpleKey, mark: Mark): SimpleKey { if Stale(key, mark) then key.(possible := false) else key }

  /** KEY and perhaps BLOCK-MAPPING-START stand where the key began, VALUE at the end. */
  ghost predicate KeyTurned(c: Core, c': Core, value: Token) {
    c.keys != [] &&
    var key := c.keys[|c.keys| - 1];
    && c.parsed <= key.number < |c.total|
    && c'.total == WithKey(c.total, key, c.flowLevel == 0 && c.indent < key.mark.column) + [value]
  }
}
