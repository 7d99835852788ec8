/**
 The scanner's belief that a required simple key is always allowed, and tokens for which it is false: a flow
 sequence that is closed on a later line, just before the column of the mapping around it.
 */
module YamlPanic {
  import opened Wrappers
  import YamlEvents
  import opened YamlTokens
  import opened YamlScanCore
  import opened YamlFetch
  import opened YamlEager

  /** A key would be required where none is allowed. */
  predicate Panics(c: Core, allowed: bool, x: Lexeme) {
    var mark := x.token.start;
    var d := Shut(Refreshed(c, mark), mark.column, mark);
    && (x.kind.AtContent? || x.kind.AtFlowStart?)
    && d.flowLevel == 0 && d.indent == mark.column && !(allowed || (x.newline && c.flowLevel == 0))
  }

  function At(kind: Kind, token: TokenKind, mark: Mark, newline: bool): RawLexeme {
    Lexeme(kind, PlainToken(token, mark).(style := YamlEvents.Plain), Mark(mark.index + 1, mark.line, mark.column + 1), newline, true, false)
  }

  /** The lexemes of "- k: [", a line break, and " ]x". */
  function Entry(): Lexeme { At(AtBlockEntry, BlockEntryToken, Mark(0, 0, 0), true) }
  function Key(): Lexeme { At(AtContent, ScalarToken, Mark(2, 0, 2), false) }
  function Colon(): Lexeme { At(AtValue, ValueToken, Mark(3, 0, 3), false) }
  function Bracket(): Lexeme { At(AtFlowStart, FlowSequenceStartToken, Mark(5, 0, 5), false) }
  function Close(): Lexeme { At(AtFlowEnd, FlowSequenceEndToken, Mark(8, 1, 1), true) }
  function Word(): Lexeme { At(AtContent, ScalarToken, Mark(9, 1, 2), false) }

  /** No level is deeper and no key stale: the fetch is that of the token alone. */
  lemma NothingFirst(c: Core, allowed: bool, x: Lexeme)
    requires forall i | 0 <= i < |c.keys| :: !Stale(c.keys[i], x.token.start)
    requires c.flowLevel > 0 || Deeper(Levels(c), x.token.start.column) == 0
    ensures Fetched(c, allowed, x) == Dispatched(c, allowed || (x.newline && c.flowLevel == 0), x.token.start, x)
    ensures Shut(Refreshed(c, x.token.start), x.token.start.column, x.token.start) == c
  {
    hide Dispatched, Deeper, Stale;
    var mark := x.token.start;
    FreshKeys(c, mark);
    assert c.total + seq(0, _ => PlainToken(BlockEndToken, mark)) == c.total;
    assert Levels(c)[..|c.indents|] == c.indents;
    FetchedIs(c, allowed, x);
  }

  lemma FreshKeys(c: Core, mark: Mark)
    requires forall i | 0 <= i < |c.keys| :: !Stale(c.keys[i], mark)
    ensures Refreshed(c, mark) == c && !Overdue(c.keys, mark)
  {
    hide Stale;
  }

  /** The states between the lexemes. */
  function Opened(): Core { STARTED.(indents := [-1], indent := 0, total := STARTED.total + [PlainToken(BlockSequenceStartToken, Mark(0, 0, 0))] + [Entry().token]) }
  function Keyed(): Core { Opened().(keys := [SimpleKey(true, false, |Opened().total|, Mark(2, 0, 2))], total := Opened().total + [Key().token]) }
  function Mapped(): Core { Plus(Turned(Keyed()), Colon().token) }
  function Inside(): Core { Plus(Mapped().(keys := Mapped().keys + [NO_KEY], flowLevel := 1), Bracket().token) }
  function Outside(): Core { Plus(Inside().(keys := Mapped().keys, flowLevel := 0), Close().token) }

  lemma FirstStep()
    ensures Fetched(STARTED, true, Entry()) == Some(After(Opened(), true))
  {
    assert Levels(STARTED) == [-1] && Deeper([-1], 0) == 0;
    NothingFirst(STARTED, true, Entry());
    OpenedIs();
  }

  lemma OpenedIs()
    ensures OfBlockEntry(STARTED, true, Mark(0, 0, 0), Entry()) == Some(After(Opened(), true))
  {
    var d := Rolled(STARTED, BlockSequenceStartToken, Mark(0, 0, 0));
    assert d.indents == [-1] && d.keys == [NO_KEY];
    assert DroppedKeys(d) == [NO_KEY];
  }

  lemma SecondStep()
    ensures Fetched(Opened(), true, Key()) == Some(After(Keyed(), false))
  {
    assert Levels(Opened()) == [-1, 0] && Deeper([-1, 0], 2) == 0;
    NothingFirst(Opened(), true, Key());
    KeyedIs();
  }

  lemma KeyedIs()
    ensures OfContent(Opened(), true, Mark(2, 0, 2), Key()) == Some(After(Keyed(), false))
  {
    assert SavedKeys(Opened(), true, Mark(2, 0, 2)) == Keyed().keys;
  }

  lemma Turning()
    ensures Turned(Keyed()).indents == [-1, 0] && Turned(Keyed()).indent == 2 && Turned(Keyed()).flowLevel == 0
    ensures |Turned(Keyed()).keys| == 1 && !Turned(Keyed()).keys[0].possible
    ensures LastKeyPossible(Keyed())
  {
    assert [-1] + [0] == [-1, 0];
    hide WithKey;
  }

  lemma ThirdStep()
    ensures Fetched(Keyed(), false, Colon()) == Some(After(Mapped(), false))
  {
    hide Turned, WithKey;
    Turning();
    assert Levels(Keyed()) == [-1, 0] && Deeper([-1, 0], 3) == 0;
    NothingFirst(Keyed(), false, Colon());
  }

  lemma FourthStep()
    ensures Fetched(Mapped(), false, Bracket()) == Some(After(Inside(), true))
  {
    hide Turned, WithKey;
    Turning();
    assert Levels(Mapped()) == [-1, 0, 2] && Deeper([-1, 0, 2], 5) == 0;
    NothingFirst(Mapped(), false, Bracket());
    assert SavedKeys(Mapped(), false, Mark(5, 0, 5)) == Mapped().keys;
  }

  lemma FifthStep()
    ensures Fetched(Inside(), true, Close()) == Some(After(Outside(), false))
  {
    hide Turned, WithKey;
    Turning();
    assert Inside().keys == [Mapped().keys[0], NO_KEY];
    NothingFirst(Inside(), true, Close());
    assert Inside().keys[..1] == Mapped().keys;
  }

  /** After these lexemes the word that follows the bracket would have to be a key, and no key is allowed there. */
  lemma RequiredKeyNotAllowed()
    ensures FetchAll(STARTED, true, [Entry(), Key(), Colon(), Bracket(), Close()]) == Some(After(Outside(), false))
    ensures Panics(Outside(), false, Word()) && Fetched(Outside(), false, Word()) == None
  {
    hide Fetched, Turned, WithKey;
    FirstStep();
    SecondStep();
    ThirdStep();
    FourthStep();
    FifthStep();
    var xs := [Entry(), Key(), Colon(), Bracket(), Close()];
    assert xs[1..] == [Key(), Colon(), Bracket(), Close()] && xs[1..][1..] == [Colon(), Bracket(), Close()];
    assert xs[1..][1..][1..] == [Bracket(), Close()] && xs[1..][1..][1..][1..] == [Close()] && [Close()][1..] == [];
    assert FetchAll(Inside(), true, [Close()]) == Some(After(Outside(), false));
    assert FetchAll(Mapped(), false, [Bracket(), Close()]) == Some(After(Outside(), false));
    assert FetchAll(Keyed(), false, [Colon(), Bracket(), Close()]) == Some(After(Outside(), false));
    assert FetchAll(Opened(), true, xs[1..]) == Some(After(Outside(), false));
    Turning();
    WordPanics();
  }

  lemma WordPanics()
    ensures Panics(Outside(), false, Word()) && Fetched(Outside(), false, Word()) == None
  {
    hide Turned, WithKey;
    Turning();
    assert Levels(Outside()) == [-1, 0, 2];
    assert Deeper([-1, 0, 2], 2) == 0 by {
      assert [-1, 0, 2][..2] == [-1, 0] && [-1, 0][..1] == [-1] && [-1][..0] == [];
    }
    NothingFirst(Outside(), false, Word());
  }

  /** The first token of a line, outside flow context, is always allowed to be a key. */
  lemma FirstOnLineIsAllowed(c: Core, allowed: bool, x: Lexeme)
    requires x.newline && c.flowLevel == 0
    ensures !Panics(c, allowed, x)
  {
  }

  /** A scalar, alias, anchor or tag is refused exactly for a lapsed required key, here, for one it would replace, or for its own text. */
  lemma ContentRefusedIff(c: Core, allowed: bool, x: Lexeme)
    requires x.kind.AtContent?
    ensures var mark := x.token.start;
      var d := Shut(Refreshed(c, mark), mark.column, mark);
      Fetched(c, allowed, x).None? <==>
        || Overdue(c.keys, mark)
        || Panics(c, allowed, x)
        || ((allowed || (x.newline && c.flowLevel == 0)) && KeyDue(d))
        || !x.ok
  {
    hide Shut, Refreshed, Overdue, KeyDue, SavedKeys;
    var mark := x.token.start;
    ShutKeepsFlow(Refreshed(c, mark), mark);
  }

  lemma ShutKeepsFlow(c: Core, mark: Mark)
    ensures Shut(c, mark.column, mark).flowLevel == c.flowLevel
  {
  }
}
