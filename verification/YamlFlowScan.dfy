/** What is written inside brackets is fetched as the tokens it spells. */
module YamlFlowScan {
  import opened Wrappers
  import opened YamlTokens
  import opened YamlScanCore
  import opened YamlFetch
  import opened YamlSource
  import opened YamlEager
  import opened YamlLayout

  /** The keys of the levels around the current one. */
  function Outer(c: Core): seq<SimpleKey>
    requires c.keys != []
  {
    c.keys[..|c.keys| - 1]
  }

  function Last(c: Core): SimpleKey
    requires c.keys != []
  {
    c.keys[|c.keys| - 1]
  }

  /** Inside brackets, where no key is required. */
  predicate Inside(c: Core) { c.flowLevel > 0 && c.keys != [] && !Last(c).required }

  /** From `c` to `d` these lexemes have added these tokens. */
  predicate Gained(c: Core, d: Core, ls: seq<Lexeme>, ts: seq<Token>)
    requires c.keys != []
  {
    && |d.keys| == |c.keys| && d == c.(keys := d.keys, total := d.total)
    && Outer(d) == AllAged(Outer(c), ls) && AllUnplaced(d.total) == AllUnplaced(c.total) + ts
  }

  lemma GainedThen(c: Core, d: Core, e: Core, ls: seq<Lexeme>, ms: seq<Lexeme>, ts: seq<Token>, us: seq<Token>)
    requires c.keys != [] && Gained(c, d, ls, ts) && d.keys != [] && Gained(d, e, ms, us)
    ensures Gained(c, e, ls + ms, ts + us)
  {
    hide Aged;
    AllAgedConcat(Outer(c), ls, ms);
  }

  lemma NothingGained(c: Core)
    requires c.keys != []
    ensures Gained(c, c, [], [])
  {
    assert AllAged(Outer(c), []) == Outer(c);
  }

  /** The key saved for the lexeme. */
  function KeyFor(c: Core, x: Lexeme): SimpleKey {
    SimpleKey(true, c.flowLevel == 0 && c.indent == x.token.start.column, |c.total|, x.token.start)
  }

  //
  // One lexeme.
  //

  /** No block is closed inside brackets. */
  lemma InsideFetch(c: Core, allowed: bool, x: Lexeme)
    requires Inside(c) && Timely(Outer(c), [x])
    ensures Fetched(c, allowed, x) == Dispatched(c.(keys := AllAged(c.keys, [x])), allowed, x.token.start, x)
    ensures !LastKeyPossible(c) ==> AllAged(c.keys, [x]) == AllAged(Outer(c), [x]) + [Last(c)]
    ensures |AllAged(c.keys, [x])| == |c.keys| && AllAged(c.keys, [x])[..|c.keys| - 1] == AllAged(Outer(c), [x])
    ensures Aged(Last(c), [x]).required == false && AllAged(c.keys, [x])[|c.keys| - 1] == Aged(Last(c), [x])
  {
    hide Dispatched, Aged, Overdue;
    var mark := x.token.start;
    AgedRefreshed(c, x);
    AgedKeeps(Last(c), [x]);
    forall i | 0 <= i < |c.keys| ensures c.keys[i].required && c.keys[i].possible ==> Aged(c.keys[i], [x]).possible {
      if i < |c.keys| - 1 { assert Outer(c)[i] == c.keys[i]; }
    }
    TimelyOne(c.keys, x);
    assert Shut(Refreshed(c, mark), mark.column, mark) == Refreshed(c, mark);
  }

  lemma InContent(c: Core, allowed: bool, x: Lexeme)
    requires Inside(c) && Timely(Outer(c), [x]) && x.kind.AtContent? && x.ok
    ensures Fetched(c, allowed, x).Some? && Fetched(c, allowed, x).value.allowed == x.brokenAfter
    ensures var d := Fetched(c, allowed, x).value.core;
      Inside(d) && Gained(c, d, [x], [Unplaced(x.token)])
      && Last(d) == if allowed then KeyFor(c, x) else Aged(Last(c), [x])
  {
    hide Fetched, Aged;
    InsideFetch(c, allowed, x);
    UnplacedSnoc(c.total, x.token);
  }

  lemma InComma(c: Core, allowed: bool, x: Lexeme)
    requires Inside(c) && Timely(Outer(c), [x]) && Is(x, AtFlowEntry, FlowEntryToken)
    ensures Fetched(c, allowed, x).Some? && Fetched(c, allowed, x).value.allowed
    ensures var d := Fetched(c, allowed, x).value.core;
      Inside(d) && Gained(c, d, [x], [Plainly(FlowEntryToken)]) && !LastKeyPossible(d)
  {
    hide Fetched, Aged;
    InsideFetch(c, allowed, x);
    UnplacedSnoc(c.total, x.token);
  }

  lemma InKey(c: Core, allowed: bool, x: Lexeme)
    requires Inside(c) && Timely(Outer(c), [x]) && Is(x, AtKey, KeyToken)
    ensures Fetched(c, allowed, x).Some? && !Fetched(c, allowed, x).value.allowed
    ensures var d := Fetched(c, allowed, x).value.core;
      Inside(d) && Gained(c, d, [x], [Plainly(KeyToken)]) && !LastKeyPossible(d)
  {
    hide Fetched, Aged;
    InsideFetch(c, allowed, x);
    UnplacedSnoc(c.total, x.token);
  }

  lemma InValue(c: Core, allowed: bool, x: Lexeme)
    requires Inside(c) && Timely(Outer(c), [x]) && Is(x, AtValue, ValueToken) && !LastKeyPossible(c)
    ensures Fetched(c, allowed, x).Some? && !Fetched(c, allowed, x).value.allowed
    ensures var d := Fetched(c, allowed, x).value.core;
      Inside(d) && Gained(c, d, [x], [Plainly(ValueToken)]) && !LastKeyPossible(d)
  {
    hide Fetched, Aged;
    InsideFetch(c, allowed, x);
    UnplacedSnoc(c.total, x.token);
  }

  /** The colon behind a possible key puts KEY in front of it. */
  lemma InTurn(c: Core, allowed: bool, x: Lexeme)
    requires Inside(c) && Timely(Outer(c), [x]) && Is(x, AtValue, ValueToken)
    requires LastKeyPossible(c) && Near(Last(c).mark, [x]) && Last(c).number <= |c.total|
    ensures Fetched(c, allowed, x).Some? && !Fetched(c, allowed, x).value.allowed
    ensures var d, n := Fetched(c, allowed, x).value.core, Last(c).number;
      && Inside(d) && !LastKeyPossible(d) && |d.keys| == |c.keys| && d == c.(keys := d.keys, total := d.total)
      && Outer(d) == AllAged(Outer(c), [x])
      && AllUnplaced(d.total)
         == AllUnplaced(c.total)[..n] + [Plainly(KeyToken)] + AllUnplaced(c.total)[n..] + [Plainly(ValueToken)]
  {
    hide Fetched, Aged, WithKey;
    InsideFetch(c, allowed, x);
    NearStays(Last(c), [x]);
    var n := Last(c).number;
    WithKeyIs(c.total, Last(c), false);
    var k := PlainToken(KeyToken, Last(c).mark);
    assert WithKey(c.total, Last(c), false) == c.total[..n] + [k] + c.total[n..];
    UnplacedSnoc(WithKey(c.total, Last(c), false), x.token);
    UnplacedConcat(c.total[..n] + [k], c.total[n..]);
    UnplacedSnoc(c.total[..n], k);
  }

  /** A bracket opens a level of its own, whatever the level it stands on. */
  lemma InOpen(c: Core, allowed: bool, x: Lexeme)
    requires Inside(c) && Timely(Outer(c), [x]) && x.kind.AtFlowStart?
    ensures Fetched(c, allowed, x).Some? && Fetched(c, allowed, x).value.allowed
    ensures var d := Fetched(c, allowed, x).value.core;
      Opens(c, d, x, AllAged(Outer(c), [x]) + [if allowed then KeyFor(c, x) else Aged(Last(c), [x])])
  {
    hide Fetched, Aged;
    InsideFetch(c, allowed, x);
    UnplacedSnoc(c.total, x.token);
  }

  /** The bracket has been taken, and these are the keys of the levels around the new one. */
  predicate Opens(c: Core, d: Core, x: Lexeme, keys: seq<SimpleKey>) {
    && d == c.(keys := keys + [NO_KEY], flowLevel := c.flowLevel + 1, total := d.total)
    && AllUnplaced(d.total) == AllUnplaced(c.total) + [Unplaced(x.token)]
  }

  /** The level has been left. */
  predicate Closes(c: Core, d: Core, ls: seq<Lexeme>, ts: seq<Token>)
    requires c.keys != [] && c.flowLevel > 0
  {
    && d == c.(keys := AllAged(Outer(c), ls), flowLevel := c.flowLevel - 1, total := d.total)
    && AllUnplaced(d.total) == AllUnplaced(c.total) + ts
  }

  lemma InClose(c: Core, allowed: bool, x: Lexeme)
    requires Inside(c) && Timely(Outer(c), [x]) && x.kind.AtFlowEnd?
    ensures Fetched(c, allowed, x).Some? && !Fetched(c, allowed, x).value.allowed
    ensures Closes(c, Fetched(c, allowed, x).value.core, [x], [Unplaced(x.token)])
  {
    hide Fetched, Aged;
    InsideFetch(c, allowed, x);
    UnplacedSnoc(c.total, x.token);
  }

  lemma ClosesThen(c: Core, d: Core, e: Core, ls: seq<Lexeme>, ms: seq<Lexeme>, ts: seq<Token>, us: seq<Token>)
    requires c.keys != [] && c.flowLevel > 0 && Gained(c, d, ls, ts) && Closes(d, e, ms, us)
    ensures Closes(c, e, ls + ms, ts + us)
  {
    hide Aged;
    AllAgedConcat(Outer(c), ls, ms);
  }

  //
  // Runs.
  //

  lemma FetchAllThen(c: Core, allowed: bool, xs: seq<Lexeme>, a: After, ys: seq<Lexeme>, ls: seq<Lexeme>)
    requires FetchAll(c, allowed, xs) == Some(a) && ls == xs + ys
    ensures FetchAll(c, allowed, ls) == FetchAll(a.core, a.allowed, ys)
  {
    hide FetchAll;
    FetchAllConcat(c, allowed, xs, ys);
  }

  /** No scalar but the last: only that can end in a line break. */
  predicate ScalarLast(ts: seq<Token>) { forall i | 0 <= i < |ts| - 1 :: !ts[i].kind.ScalarToken? }

  lemma KeyAged(c: Core, x: Lexeme, ls: seq<Lexeme>)
    ensures Aged(KeyFor(c, x), [x] + ls) == Aged(KeyFor(c, x), ls)
  {
    hide Aged;
    AgedConcat(KeyFor(c, x), [x], ls);
    AgedOne(KeyFor(c, x), x);
  }

  /** Properties, a scalar or an alias: one key for all of them, if one is allowed. */
  lemma {:induction false} ContentRun(c: Core, allowed: bool, ls: seq<Lexeme>, ts: seq<Token>) returns (a: After)
    requires Inside(c) && Timely(Outer(c), ls) && Says(ls, ts) && ScalarLast(ts)
    ensures FetchAll(c, allowed, ls) == Some(a) && Inside(a.core) && Gained(c, a.core, ls, ts)
    ensures ls == [] ==> a == After(c, allowed)
    ensures ls != [] ==> Last(a.core) == if allowed then Aged(KeyFor(c, ls[0]), ls) else Aged(Last(c), ls)
    ensures ls != [] && !ts[|ts| - 1].kind.ScalarToken? ==> !a.allowed
    decreases |ls|
  {
    hide Aged, Fetched, FetchAll, Gained;
    if ls == [] {
      NothingGained(c);
      assert FetchAll(c, allowed, []) == Some(After(c, allowed)) by { FetchAllNone(c, allowed); }
      return After(c, allowed);
    }
    var x, rest := ls[0], ls[1..];
    assert ls == [x] + rest && ts == [ts[0]] + ts[1..];
    TimelySplit(Outer(c), [x], rest);
    InContent(c, allowed, x);
    var m := Fetched(c, allowed, x).value;
    FetchAllCons(c, allowed, x, rest);
    assert Outer(m.core) == AllAged(Outer(c), [x]) by { GainedMeans(c, m.core, [x], [Unplaced(x.token)]); }
    a := ContentRun(m.core, m.allowed, rest, ts[1..]);
    GainedThen(c, m.core, a.core, [x], rest, [ts[0]], ts[1..]);
    KeyAged(c, x, rest);
    AgedConcat(Last(c), [x], rest);
    LastOne(Last(m.core));
  }

  lemma LastOne(key: SimpleKey)
    ensures Aged(key, []) == key
  {
  }

  lemma GainedMeans(c: Core, d: Core, ls: seq<Lexeme>, ts: seq<Token>)
    requires c.keys != [] && Gained(c, d, ls, ts)
    ensures |d.keys| == |c.keys| && Outer(d) == AllAged(Outer(c), ls) && d.flowLevel == c.flowLevel
    ensures AllUnplaced(d.total) == AllUnplaced(c.total) + ts && |d.total| == |c.total| + |ts|
  {
    assert |AllUnplaced(d.total)| == |d.total| && |AllUnplaced(c.total)| == |c.total|;
  }

  lemma NoScalars(p: Properties)
    ensures ScalarLast(PropertyTokens(p)) && forall i | 0 <= i < |PropertyTokens(p)| :: !PropertyTokens(p)[i].kind.ScalarToken?
    ensures forall t :: ScalarLast(PropertyTokens(p) + [t])
  {
  }

  /** A node inside brackets; where a key is allowed one is saved for it. */
  lemma {:induction false} NodeRun(x: Source, ls: seq<Lexeme>, c: Core, allowed: bool) returns (a: After)
    requires Inside(c) && Timely(Outer(c), ls) && FlowWritten(x, ls) && !LastKeyPossible(c)
    ensures FetchAll(c, allowed, ls) == Some(a) && Inside(a.core) && Gained(c, a.core, ls, Spelled(x))
    ensures Last(a.core) == if allowed && ls != [] then Aged(KeyFor(c, ls[0]), ls) else Last(c)
    decreases x, 1, 0
  {
    hide Aged, Fetched, FetchAll, Gained, Timely, Says;
    AgedKeeps(Last(c), ls);
    match x {
      case Nothing =>
        FetchAllNone(c, allowed);
        NothingGained(c);
        return After(c, allowed);
      case Items(p, form, items) => a := CollectionRun(x, ls, c, allowed);
      case Pairs(p, form, entries) => a := CollectionRun(x, ls, c, allowed);
      case _ =>
        LeafScalars(x);
        a := ContentRun(c, allowed, ls, Spelled(x));
    }
  }

  lemma LeafScalars(x: Source)
    ensures x.AliasOf? || x.Bare? || x.Text? ==> ScalarLast(Spelled(x))
  {
    if x.Bare? { NoScalars(x.props); }
    if x.Text? { NoScalars(x.props); }
  }

  /** The tokens of a flow collection behind its properties and bracket. */
  function Interior(x: Source): seq<Token>
    requires (x.Items? || x.Pairs?) && x.form.InFlow?
  {
    if x.Items? then FlowItems(x.items, true, x.form.comma) else FlowEntries(x.entries, true, x.form.comma)
  }

  lemma CollectionSpelled(x: Source)
    requires (x.Items? || x.Pairs?) && x.form.InFlow?
    ensures Spelled(x) == (PropertyTokens(x.props) + [Plainly(if x.Items? then FlowSequenceStartToken else FlowMappingStartToken)]) + Interior(x)
  {
    hide FlowItems, FlowEntries, PropertyTokens;
  }

  lemma {:induction false} CollectionRun(x: Source, ls: seq<Lexeme>, c: Core, allowed: bool) returns (a: After)
    requires Inside(c) && Timely(Outer(c), ls) && FlowWritten(x, ls) && !LastKeyPossible(c) && (x.Items? || x.Pairs?)
    ensures FetchAll(c, allowed, ls) == Some(a) && Inside(a.core) && Gained(c, a.core, ls, Spelled(x))
    ensures Last(a.core) == if allowed then Aged(KeyFor(c, ls[0]), ls) else Last(c)
    decreases x, 0, 0
  {
    hide Aged, Fetched, FetchAll, Gained, Timely, Says, Spelled, Headed, Closes, PropertyTokens, FlowItems, FlowEntries;
    var n := |PropertyTokens(x.props)|;
    assert n < |ls| && Says(ls[..n], PropertyTokens(x.props)) && x.form.InFlow? && ls[n].kind.AtFlowStart?;
    assert Unplaced(ls[n].token) == Plainly(if x.Items? then FlowSequenceStartToken else FlowMappingStartToken);
    assert x.Items? ==> ItemsWritten(x.items, true, x.form.comma, ls[n + 1..]);
    assert x.Pairs? ==> EntriesWritten(x.entries, true, x.form.comma, ls[n + 1..]);
    hide FlowWritten, ItemsWritten, EntriesWritten;
    var props, open, rest := ls[..n], ls[n], ls[n + 1..];
    assert ls == (props + [open]) + rest;
    TimelySplit(Outer(c), props + [open], rest);
    var m := HeadRun(x.props, props, open, c, allowed);
    var last := LastAfter(c, allowed, props + [open]);
    HeadedTimely(c, m.core, props + [open], last, PropertyTokens(x.props) + [Unplaced(open.token)], rest);
    if x.Items? {
      a := ItemsRun(x.items, true, x.form.comma, rest, m.core, true);
    } else {
      a := EntriesRun(x.entries, true, x.form.comma, rest, m.core, true);
    }
    FetchAllThen(c, allowed, props + [open], m, rest, ls);
    CollectionSpelled(x);
    HeadedCloses(c, m.core, a.core, props + [open], last, PropertyTokens(x.props) + [Unplaced(open.token)], rest, Interior(x));
    LastAgain(c, allowed, props + [open], rest, ls);
  }

  /** The key of the level after these lexemes, one of which may have been saved for them. */
  function LastAfter(c: Core, allowed: bool, ls: seq<Lexeme>): SimpleKey
    requires c.keys != []
  {
    if allowed && ls != [] then Aged(KeyFor(c, ls[0]), ls) else Last(c)
  }

  lemma LastAgain(c: Core, allowed: bool, ls: seq<Lexeme>, ms: seq<Lexeme>, all: seq<Lexeme>)
    requires c.keys != [] && !LastKeyPossible(c) && ls != [] && all == ls + ms
    ensures Aged(LastAfter(c, allowed, ls), ms) == LastAfter(c, allowed, all)
  {
    hide Aged;
    AgedConcat(KeyFor(c, ls[0]), ls, ms);
    AgedKeeps(Last(c), ms);
  }

  /** A level has been entered over a key of the one around it. */
  predicate Headed(c: Core, d: Core, ls: seq<Lexeme>, last: SimpleKey, ts: seq<Token>)
    requires c.keys != []
  {
    && d == c.(keys := AllAged(Outer(c), ls) + [last] + [NO_KEY], flowLevel := c.flowLevel + 1, total := d.total)
    && AllUnplaced(d.total) == AllUnplaced(c.total) + ts
  }

  lemma HeadedTimely(c: Core, d: Core, ls: seq<Lexeme>, last: SimpleKey, ts: seq<Token>, rest: seq<Lexeme>)
    requires c.keys != [] && Headed(c, d, ls, last, ts) && Timely(AllAged(Outer(c), ls), rest)
    requires last.required && last.possible ==> Aged(last, rest).possible
    ensures Inside(d) && !LastKeyPossible(d) && Outer(d) == AllAged(Outer(c), ls) + [last] && Timely(Outer(d), rest)
  {
    hide Aged;
    assert Outer(d) == AllAged(Outer(c), ls) + [last];
  }

  lemma HeadedCloses(c: Core, d: Core, e: Core, ls: seq<Lexeme>, last: SimpleKey, ts: seq<Token>, rest: seq<Lexeme>, us: seq<Token>)
    requires c.keys != [] && Headed(c, d, ls, last, ts) && Closes(d, e, rest, us)
    ensures Gained(c, e, ls + rest, ts + us) && Last(e) == Aged(last, rest)
    ensures e.keys != [] && e.flowLevel == c.flowLevel && Last(e).required == last.required
  {
    hide Aged;
    AgedKeeps(last, rest);
    assert Outer(d) == AllAged(Outer(c), ls) + [last];
    AllAgedConcat(Outer(c), ls, rest);
    assert e.keys == AllAged(AllAged(Outer(c), ls), rest) + [Aged(last, rest)];
  }

  /** The properties of a collection and its bracket. */
  lemma HeadRun(p: Properties, props: seq<Lexeme>, open: Lexeme, c: Core, allowed: bool) returns (m: After)
    requires Inside(c) && Timely(Outer(c), props + [open]) && !LastKeyPossible(c)
    requires Says(props, PropertyTokens(p)) && open.kind.AtFlowStart?
    ensures FetchAll(c, allowed, props + [open]) == Some(m) && m.allowed
    ensures Headed(c, m.core, props + [open], LastAfter(c, allowed, props + [open]), PropertyTokens(p) + [Unplaced(open.token)])
    ensures LastAfter(c, allowed, props + [open]).required == false
  {
    hide Aged, Fetched, FetchAll, Timely, PropertyTokens;
    NoScalars(p);
    TimelySplit(Outer(c), props, [open]);
    var h := ContentRun(c, allowed, props, PropertyTokens(p));
    InOpen(h.core, h.allowed, open);
    m := Fetched(h.core, h.allowed, open).value;
    FetchAllOne(h.core, h.allowed, open);
    FetchAllThen(c, allowed, props, h, [open], props + [open]);
    AllAgedConcat(Outer(c), props, [open]);
    HeadKey(c, allowed, props, open, h);
  }

  lemma HeadKey(c: Core, allowed: bool, props: seq<Lexeme>, open: Lexeme, h: After)
    requires Inside(c) && !LastKeyPossible(c) && h.core.keys != []
    requires props == [] ==> h == After(c, allowed)
    requires props != [] ==> !h.allowed && Last(h.core) == if allowed then Aged(KeyFor(c, props[0]), props) else Aged(Last(c), props)
    ensures LastAfter(c, allowed, props + [open]) == if h.allowed then KeyFor(h.core, open) else Aged(Last(h.core), [open])
    ensures LastAfter(c, allowed, props + [open]).required == false
  {
    hide Aged;
    AgedKeeps(Last(c), props + [open]);
    AgedKeeps(Last(c), props);
    AgedKeeps(KeyFor(c, (props + [open])[0]), props + [open]);
    if props == [] {
      assert props + [open] == [open] && [open] + [] == [open];
      KeyAged(c, open, []);
      LastOne(KeyFor(c, open));
    } else {
      LastAgain(c, allowed, props, [open], props + [open]);
    }
  }

  /** The end of a collection, behind a comma or not. */
  lemma EndRun(comma: bool, end: TokenKind, ls: seq<Lexeme>, c: Core, allowed: bool) returns (a: After)
    requires Inside(c) && Timely(Outer(c), ls) && EndWritten(comma, end, ls)
    ensures FetchAll(c, allowed, ls) == Some(a) && Closes(c, a.core, ls, FlowEnd(comma, end))
  {
    hide Aged, Fetched, FetchAll, Timely;
    if comma {
      assert ls == [ls[0]] + [ls[1]];
      TimelySplit(Outer(c), [ls[0]], [ls[1]]);
      InComma(c, allowed, ls[0]);
      var m := Fetched(c, allowed, ls[0]).value;
      InClose(m.core, m.allowed, ls[1]);
      FetchAllOne(m.core, m.allowed, ls[1]);
      FetchAllCons(c, allowed, ls[0], [ls[1]]);
      a := Fetched(m.core, m.allowed, ls[1]).value;
      ClosesThen(c, m.core, a.core, [ls[0]], [ls[1]], [Plainly(FlowEntryToken)], [Plainly(end)]);
    } else {
      assert ls == [ls[0]];
      InClose(c, allowed, ls[0]);
      FetchAllOne(c, allowed, ls[0]);
      a := Fetched(c, allowed, ls[0]).value;
    }
  }

  /** A comma, if there is one, allows a key behind it. */
  lemma SeparatorRun(first: bool, ls: seq<Lexeme>, c: Core, allowed: bool) returns (m: After, sep: seq<Lexeme>)
    requires Inside(c) && Timely(Outer(c), ls) && Separated(first, ls) && (first ==> allowed && !LastKeyPossible(c))
    ensures ls == sep + Behind(first, ls) && FetchAll(c, allowed, sep) == Some(m) && m.allowed
    ensures Inside(m.core) && !LastKeyPossible(m.core) && Gained(c, m.core, sep, Separator(first))
    ensures Timely(Outer(m.core), Behind(first, ls))
  {
    hide Aged, Fetched, FetchAll, Timely;
    if first {
      assert ls == [] + ls;
      FetchAllNone(c, allowed);
      NothingGained(c);
      return After(c, allowed), [];
    }
    sep := [ls[0]];
    assert ls == sep + ls[1..];
    TimelySplit(Outer(c), sep, ls[1..]);
    InComma(c, allowed, ls[0]);
    FetchAllOne(c, allowed, ls[0]);
    m := Fetched(c, allowed, ls[0]).value;
  }

  lemma {:induction false} ItemsRun(xs: seq<Source>, first: bool, comma: bool, ls: seq<Lexeme>, c: Core, allowed: bool) returns (a: After)
    requires Inside(c) && Timely(Outer(c), ls) && ItemsWritten(xs, first, comma, ls) && (first ==> allowed && !LastKeyPossible(c))
    ensures FetchAll(c, allowed, ls) == Some(a) && Closes(c, a.core, ls, FlowItems(xs, first, comma))
    decreases xs, 0, 0
  {
    hide Aged, Fetched, FetchAll, Timely, Gained, Closes, EndWritten, FlowEnd, ItemWritten, Spelled, LastKeyPossible, Separated;
    if xs == [] {
      a := EndRun(comma, FlowSequenceEndToken, ls, c, allowed);
      return;
    }
    var m, sep := SeparatorRun(first, ls, c, allowed);
    var body := Behind(first, ls);
    var k: nat :| k <= |body| && ItemWritten(xs[0], body[..k]) && ItemsWritten(xs[1..], false, comma, body[k..]);
    assert body == body[..k] + body[k..];
    TimelySplit(Outer(m.core), body[..k], body[k..]);
    var n := ItemRun(xs[0], body[..k], m.core);
    GainedMeans(m.core, n.core, body[..k], Spelled(xs[0]));
    a := ItemsRun(xs[1..], false, comma, body[k..], n.core, n.allowed);
    ThreeRun(c, allowed, sep, m, body[..k], n, body[k..], ls);
    ThreeCloses(c, sep, m.core, body[..k], n.core, body[k..], a.core, ls,
                Separator(first), Spelled(xs[0]), FlowItems(xs[1..], false, comma));
  }

  lemma ThreeRun(c: Core, allowed: bool, ls: seq<Lexeme>, m: After, ms: seq<Lexeme>, n: After, ns: seq<Lexeme>, all: seq<Lexeme>)
    requires FetchAll(c, allowed, ls) == Some(m) && FetchAll(m.core, m.allowed, ms) == Some(n) && all == ls + (ms + ns)
    ensures FetchAll(c, allowed, all) == FetchAll(n.core, n.allowed, ns)
  {
    hide FetchAll;
    FetchAllThen(c, allowed, ls, m, ms + ns, all);
    FetchAllThen(m.core, m.allowed, ms, n, ns, ms + ns);
  }

  lemma ThreeCloses(c: Core, ls: seq<Lexeme>, m: Core, ms: seq<Lexeme>, n: Core, ns: seq<Lexeme>, d: Core, all: seq<Lexeme>,
                    ts: seq<Token>, us: seq<Token>, vs: seq<Token>)
    requires c.keys != [] && c.flowLevel > 0 && Gained(c, m, ls, ts) && m.keys != [] && Gained(m, n, ms, us)
    requires n.keys != [] && n.flowLevel > 0 && Closes(n, d, ns, vs) && all == ls + (ms + ns)
    ensures Closes(c, d, all, ts + (us + vs))
  {
    GainedMeans(c, m, ls, ts);
    ClosesThen(m, n, d, ms, ns, us, vs);
    ClosesThen(c, m, d, ls, ms + ns, ts, us + vs);
  }

  /** An item of a flow sequence, where a key is allowed. */
  lemma {:induction false} ItemRun(x: Source, ls: seq<Lexeme>, c: Core) returns (a: After)
    requires Inside(c) && Timely(Outer(c), ls) && ItemWritten(x, ls) && !LastKeyPossible(c)
    ensures FetchAll(c, true, ls) == Some(a) && Inside(a.core) && Gained(c, a.core, ls, Spelled(x))
    decreases x, 2, 0
  {
    hide Aged, Fetched, FetchAll, Timely, Gained, EntryWritten;
    if x.Single? {
      a := EntryRun(x.entry, ls, c);
    } else {
      a := NodeRun(x, ls, c, true);
    }
  }

  lemma {:induction false} EntriesRun(es: seq<Entry>, first: bool, comma: bool, ls: seq<Lexeme>, c: Core, allowed: bool) returns (a: After)
    requires Inside(c) && Timely(Outer(c), ls) && EntriesWritten(es, first, comma, ls) && (first ==> allowed && !LastKeyPossible(c))
    ensures FetchAll(c, allowed, ls) == Some(a) && Closes(c, a.core, ls, FlowEntries(es, first, comma))
    decreases es, 0, 0
  {
    hide Aged, Fetched, FetchAll, Timely, Gained, Closes, EndWritten, FlowEnd, EntryWritten, EntryTokens, LastKeyPossible, Separated;
    if es == [] {
      a := EndRun(comma, FlowMappingEndToken, ls, c, allowed);
      return;
    }
    var m, sep := SeparatorRun(first, ls, c, allowed);
    var body := Behind(first, ls);
    var k: nat :| k <= |body| && EntryWritten(es[0], body[..k]) && EntriesWritten(es[1..], false, comma, body[k..]);
    assert body == body[..k] + body[k..];
    TimelySplit(Outer(m.core), body[..k], body[k..]);
    var n := EntryRun(es[0], body[..k], m.core);
    GainedMeans(m.core, n.core, body[..k], EntryTokens(es[0]));
    a := EntriesRun(es[1..], false, comma, body[k..], n.core, n.allowed);
    ThreeRun(c, allowed, sep, m, body[..k], n, body[k..], ls);
    ThreeCloses(c, sep, m.core, body[..k], n.core, body[k..], a.core, ls,
                Separator(first), EntryTokens(es[0]), FlowEntries(es[1..], false, comma));
  }

  /** A pair inside brackets, where a key is allowed. */
  lemma {:induction false} EntryRun(e: Entry, ls: seq<Lexeme>, c: Core) returns (a: After)
    requires Inside(c) && Timely(Outer(c), ls) && EntryWritten(e, ls) && !LastKeyPossible(c)
    ensures FetchAll(c, true, ls) == Some(a) && Inside(a.core) && Gained(c, a.core, ls, EntryTokens(e))
    decreases e, 2, 0
  {
    hide Aged, Fetched, FetchAll, Timely, Gained, FlowWritten, Spelled;
    if e.lone {
      a := NodeRun(e.key, ls, c, true);
      LoneTokens(e);
    } else if k: nat :| e.marked && SimpleAt(e, ls, k) {
      a := SimpleRun(e, ls, k, c);
    } else {
      a := QuestionRun(e, ls, c);
    }
  }

  lemma LoneTokens(e: Entry)
    requires e.lone && !e.marked
    ensures EntryTokens(e) == Spelled(e.key)
  {
    hide Spelled;
  }

  /** A simple key and its colon, where a key is allowed. */
  lemma {:induction false} SimpleRun(e: Entry, ls: seq<Lexeme>, k: nat, c: Core) returns (a: After)
    requires Inside(c) && Timely(Outer(c), ls) && !e.lone && e.marked && SimpleAt(e, ls, k) && !LastKeyPossible(c)
    ensures FetchAll(c, true, ls) == Some(a) && Inside(a.core) && Gained(c, a.core, ls, EntryTokens(e))
    decreases e, 1, 0
  {
    hide Aged, Fetched, FetchAll, Timely, Gained, FlowWritten, Spelled;
    var key, colon, rest := ls[..k], ls[k], ls[k + 1..];
    assert ls == key + ([colon] + rest) && ls == (key + [colon]) + rest && ls[..k + 1] == key + [colon];
    TimelySplit(Outer(c), key, [colon] + rest);
    TimelySplit(AllAged(Outer(c), key), [colon], rest);
    var m := NodeRun(e.key, key, c, true);
    var saved := KeyFor(c, ls[0]);
    assert Last(m.core) == saved by { NearStays(saved, key); }
    GainedMeans(c, m.core, key, Spelled(e.key));
    InTurn(m.core, m.allowed, colon);
    var n := Fetched(m.core, m.allowed, colon).value;
    TurnGained(c, m.core, n.core, key, colon, Spelled(e.key));
    a := NodeRun(e.value, rest, n.core, n.allowed);
    FetchAllOne(m.core, m.allowed, colon);
    ThreeRun(c, true, key, m, [colon], n, rest, ls);
    GainedThen(c, n.core, a.core, key + [colon], rest, [Plainly(KeyToken)] + Spelled(e.key) + [Plainly(ValueToken)], Spelled(e.value));
    SimpleTokens(e);
  }

  /** KEY stands in front of what was gained since the key was saved. */
  lemma TurnGained(c: Core, m: Core, n: Core, key: seq<Lexeme>, colon: Lexeme, ts: seq<Token>)
    requires c.keys != [] && Gained(c, m, key, ts) && |n.keys| == |m.keys| && n == m.(keys := n.keys, total := n.total)
    requires Outer(n) == AllAged(Outer(m), [colon])
    requires AllUnplaced(n.total) == AllUnplaced(m.total)[..|c.total|] + [Plainly(KeyToken)] + AllUnplaced(m.total)[|c.total|..]
                                     + [Plainly(ValueToken)]
    ensures Gained(c, n, key + [colon], [Plainly(KeyToken)] + ts + [Plainly(ValueToken)])
  {
    hide Aged;
    AllAgedConcat(Outer(c), key, [colon]);
    assert |AllUnplaced(c.total)| == |c.total|;
    assert AllUnplaced(m.total)[..|c.total|] == AllUnplaced(c.total) && AllUnplaced(m.total)[|c.total|..] == ts;
  }

  lemma SimpleTokens(e: Entry)
    requires !e.lone && e.marked
    ensures EntryTokens(e) == ([Plainly(KeyToken)] + Spelled(e.key) + [Plainly(ValueToken)]) + Spelled(e.value)
  {
    hide Spelled;
  }

  /** A key behind a question mark. */
  lemma {:induction false} QuestionRun(e: Entry, ls: seq<Lexeme>, c: Core) returns (a: After)
    requires Inside(c) && Timely(Outer(c), ls) && !e.lone && ls != [] && Is(ls[0], AtKey, KeyToken)
    requires if e.marked then exists k: nat :: ExplicitAt(e, ls, k) else FlowWritten(e.key, ls[1..])
    ensures FetchAll(c, true, ls) == Some(a) && Inside(a.core) && Gained(c, a.core, ls, EntryTokens(e))
    decreases e, 1, 1
  {
    hide Aged, Fetched, FetchAll, Timely, Gained, FlowWritten, Spelled;
    QuestionTokens(e);
    if !e.marked {
      assert ls == [ls[0]] + ls[1..];
      a := QuestionKeyRun(e, ls[0], ls[1..], c);
      return;
    }
    var k: nat :| ExplicitAt(e, ls, k);
    var mark, key, colon, rest := ls[0], ls[1..k], ls[k], ls[k + 1..];
    assert ls == ([mark] + key) + ([colon] + rest);
    TimelySplit(Outer(c), [mark] + key, [colon] + rest);
    var n := QuestionKeyRun(e, mark, key, c);
    GainedMeans(c, n.core, [mark] + key, [Plainly(KeyToken)] + Spelled(e.key));
    a := ValueRun(e.value, colon, rest, n.core, n.allowed);
    GainedThen(c, n.core, a.core, [mark] + key, [colon] + rest, [Plainly(KeyToken)] + Spelled(e.key), [Plainly(ValueToken)] + Spelled(e.value));
    FetchAllThen(c, true, [mark] + key, n, [colon] + rest, ls);
  }

  lemma {:induction false} QuestionKeyRun(e: Entry, mark: Lexeme, key: seq<Lexeme>, c: Core) returns (n: After)
    requires Inside(c) && Timely(Outer(c), [mark] + key) && Is(mark, AtKey, KeyToken) && FlowWritten(e.key, key)
    ensures FetchAll(c, true, [mark] + key) == Some(n) && Inside(n.core) && !LastKeyPossible(n.core)
    ensures Gained(c, n.core, [mark] + key, [Plainly(KeyToken)] + Spelled(e.key))
    decreases e, 1, 0
  {
    hide Aged, Fetched, FetchAll, Timely, Gained, FlowWritten, Spelled;
    TimelySplit(Outer(c), [mark], key);
    InKey(c, true, mark);
    var m := Fetched(c, true, mark).value;
    GainedMeans(c, m.core, [mark], [Plainly(KeyToken)]);
    n := NodeRun(e.key, key, m.core, false);
    FetchAllCons(c, true, mark, key);
    GainedThen(c, m.core, n.core, [mark], key, [Plainly(KeyToken)], Spelled(e.key));
  }

  lemma {:induction false} ValueRun(x: Source, colon: Lexeme, rest: seq<Lexeme>, c: Core, allowed: bool) returns (a: After)
    requires Inside(c) && Timely(Outer(c), [colon] + rest) && !LastKeyPossible(c)
    requires Is(colon, AtValue, ValueToken) && FlowWritten(x, rest)
    ensures FetchAll(c, allowed, [colon] + rest) == Some(a) && Inside(a.core)
    ensures Gained(c, a.core, [colon] + rest, [Plainly(ValueToken)] + Spelled(x))
    decreases x, 3, 0
  {
    hide Aged, Fetched, FetchAll, Timely, Gained, FlowWritten, Spelled;
    TimelySplit(Outer(c), [colon], rest);
    InValue(c, allowed, colon);
    var m := Fetched(c, allowed, colon).value;
    GainedMeans(c, m.core, [colon], [Plainly(ValueToken)]);
    a := NodeRun(x, rest, m.core, m.allowed);
    FetchAllCons(c, allowed, colon, rest);
    GainedThen(c, m.core, a.core, [colon], rest, [Plainly(ValueToken)], Spelled(x));
  }

  lemma QuestionTokens(e: Entry)
    requires !e.lone
    ensures EntryTokens(e) == [Plainly(KeyToken)] + Spelled(e.key) + (if e.marked then [Plainly(ValueToken)] + Spelled(e.value) else [])
    ensures !e.marked ==> EntryTokens(e) == [Plainly(KeyToken)] + Spelled(e.key)
  {
    hide Spelled;
  }
}
