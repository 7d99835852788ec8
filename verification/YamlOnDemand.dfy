/**
 Scanning on demand against fetching everything at once. On demand, keys are dropped as soon as the scanner has
 moved past them, whether or not another lexeme follows; marks that only move forward make the two agree.
 */
module YamlOnDemand {
  import opened Wrappers
  import opened YamlTokens
  import opened YamlScanCore
  import opened YamlFetch
  import opened YamlEager

  predicate Later(m: Mark, n: Mark) { m.line <= n.line && m.index <= n.index }

  /** Where the scanner stands behind the lexeme. */
  function EndOf(x: Lexeme): Mark { if x.kind.AtStreamEnd? then EndMark(x.token.start) else x.end }

  /** The marks of the lexemes move forward. */
  predicate Forward(xs: seq<Lexeme>) {
    forall i | 0 <= i < |xs| :: Later(xs[i].token.start, EndOf(xs[i])) && (i + 1 < |xs| ==> Later(EndOf(xs[i]), xs[i + 1].token.start))
  }

  /** From `e` to `c`, keys that the mark has passed may have been dropped, and tokens delivered. */
  predicate Ahead(e: Core, c: Core, mark: Mark) {
    && c == e.(keys := c.keys, parsed := c.parsed) && |c.keys| == |e.keys|
    && forall i | 0 <= i < |e.keys| ::
         c.keys[i] == e.keys[i]
         || (c.keys[i] == e.keys[i].(possible := false) && !e.keys[i].required && Stale(e.keys[i], mark))
  }

  lemma StaysStale(key: SimpleKey, m: Mark, n: Mark)
    requires Stale(key, m) && Later(m, n)
    ensures Stale(key, n)
  {
  }

  /** Fetching in `d`, which is `c` with other tokens delivered. */
  predicate Same(c: Core, d: Core) { d == c.(parsed := d.parsed) }

  predicate SameAfter(a: Option<After>, b: Option<After>) {
    if a.None? then b.None? else b.Some? && Same(a.value.core, b.value.core) && a.value.allowed == b.value.allowed
  }

  predicate SameCore(a: Option<Core>, b: Option<Core>) { if a.None? then b.None? else b.Some? && Same(a.value, b.value) }

  lemma DispatchFree(c: Core, d: Core, allowed: bool, mark: Mark, x: Lexeme)
    requires Same(c, d)
    ensures SameAfter(Dispatched(c, allowed, mark, x), Dispatched(d, allowed, mark, x))
  {
    hide Shut, Dropped, Saved, Rolled, Turned, LastKeyPossible, EndMark;
    match x.kind {
      case AtStreamEnd => ResetFree(c, d, EndMark(mark));
      case AtDirective => ResetFree(c, d, mark);
      case AtDocumentIndicator => ResetFree(c, d, mark);
      case AtFlowStart => KeysFree(c, d, allowed, mark);
      case AtContent => KeysFree(c, d, allowed, mark);
      case AtBlockEntry => RolledFree(c, d, BlockSequenceStartToken, mark);
      case AtKey => RolledFree(c, d, BlockMappingStartToken, mark);
      case AtValue =>
        KeysFree(c, d, allowed, mark);
        RolledFree(c, d, BlockMappingStartToken, mark);
      case _ => DroppedFree(c, d);
    }
  }

  lemma ResetFree(c: Core, d: Core, mark: Mark)
    requires Same(c, d)
    ensures SameCore(Reset(c, mark), Reset(d, mark))
  {
    hide Dropped, Shut;
    ShutFree(c, d, -1, mark);
    DroppedFree(Shut(c, -1, mark), Shut(d, -1, mark));
  }

  lemma ShutFree(c: Core, d: Core, column: int, mark: Mark)
    requires Same(c, d)
    ensures Same(Shut(c, column, mark), Shut(d, column, mark)) && Shut(d, column, mark).parsed == d.parsed
  {
    hide Deeper;
  }

  lemma DroppedFree(c: Core, d: Core)
    requires Same(c, d)
    ensures SameCore(Dropped(c), Dropped(d))
  {
  }

  lemma RolledFree(c: Core, d: Core, kind: TokenKind, mark: Mark)
    requires Same(c, d)
    ensures Same(Rolled(c, kind, mark), Rolled(d, kind, mark))
    ensures SameCore(Dropped(Rolled(c, kind, mark)), Dropped(Rolled(d, kind, mark)))
  {
  }

  lemma KeysFree(c: Core, d: Core, allowed: bool, mark: Mark)
    requires Same(c, d)
    ensures SameCore(Saved(c, allowed, mark), Saved(d, allowed, mark))
    ensures Same(Turned(c), Turned(d)) && LastKeyPossible(c) == LastKeyPossible(d)
  {
    hide WithKey;
  }

  lemma KeepsDelivered(c: Core, allowed: bool, mark: Mark, x: Lexeme)
    ensures Dispatched(c, allowed, mark, x).Some? ==> Dispatched(c, allowed, mark, x).value.core.parsed == c.parsed
  {
    hide WithKey, Deeper;
  }

  /** What has been delivered does not matter to a fetch. */
  lemma DeliveredFree(c: Core, d: Core, allowed: bool, x: Lexeme)
    requires Same(c, d)
    ensures SameAfter(Fetched(c, allowed, x), Fetched(d, allowed, x))
    ensures Fetched(d, allowed, x).Some? ==> Fetched(d, allowed, x).value.core.parsed == d.parsed
  {
    hide Dispatched, Shut, Overdue;
    var mark := x.token.start;
    var r, s := Refreshed(c, mark), Refreshed(d, mark);
    assert r.keys == s.keys;
    ShutFree(r, s, mark.column, mark);
    DispatchFree(Shut(r, mark.column, mark), Shut(s, mark.column, mark), allowed || (x.newline && c.flowLevel == 0), mark, x);
    KeepsDelivered(Shut(s, mark.column, mark), allowed || (x.newline && c.flowLevel == 0), mark, x);
  }

  lemma FetchInStep(e: Core, c: Core, mark: Mark, allowed: bool, x: Lexeme)
    requires Ahead(e, c, mark) && Later(mark, x.token.start)
    ensures Fetched(c, allowed, x)
         == match Fetched(e, allowed, x) case None => None case Some(a) => Some(After(a.core.(parsed := c.parsed), a.allowed))
  {
    hide Dispatched, Shut, Stale;
    var start, d := x.token.start, c.(parsed := e.parsed);
    forall i | 0 <= i < |e.keys| ensures Fresh(c.keys[i], start) == Fresh(e.keys[i], start) {
      if c.keys[i] != e.keys[i] {
        StaysStale(e.keys[i], mark, start);
        NotPossible(c.keys[i], start);
      }
    }
    assert Refreshed(d, start).keys == Refreshed(e, start).keys;
    assert Overdue(c.keys, start) <==> Overdue(e.keys, start) by { SameOverdue(e, c, mark, start); }
    assert Refreshed(d, start) == Refreshed(e, start);
    DeliveredFree(d, c, allowed, x);
    hide Overdue, Refreshed;
    FetchedIs(d, allowed, x);
    FetchedIs(e, allowed, x);
  }

  lemma NotPossible(key: SimpleKey, mark: Mark)
    requires !key.possible
    ensures Fresh(key, mark) == key && !Stale(key, mark)
  {
  }

  lemma SameOverdue(e: Core, c: Core, mark: Mark, start: Mark)
    requires Ahead(e, c, mark) && Later(mark, start)
    ensures Overdue(c.keys, start) <==> Overdue(e.keys, start)
  {
    hide Stale;
    forall i | 0 <= i < |e.keys|
      ensures c.keys[i].required && Stale(c.keys[i], start) <==> e.keys[i].required && Stale(e.keys[i], start)
    {
      if c.keys[i] != e.keys[i] { NotPossible(c.keys[i], start); }
    }
  }

  /** Dropping keys the mark has passed keeps the two in step. */
  lemma RefreshInStep(e: Core, c: Core, mark: Mark)
    requires Ahead(e, c, mark) && !Overdue(c.keys, mark)
    ensures Ahead(e, Refreshed(c, mark), mark)
  {
  }

  /** A required key dropped too late stops the eager fetches as well, at the next lexeme. */
  lemma OverdueInStep(e: Core, c: Core, mark: Mark, allowed: bool, x: Lexeme)
    requires Ahead(e, c, mark) && Overdue(c.keys, mark) && Later(mark, x.token.start)
    ensures Fetched(e, allowed, x) == None
  {
    hide Dispatched, Shut;
    var i :| 0 <= i < |c.keys| && c.keys[i].required && Stale(c.keys[i], mark);
    assert c.keys[i] == e.keys[i];
    StaysStale(e.keys[i], mark, x.token.start);
    assert Overdue(e.keys, x.token.start);
  }

  //
  // Whole runs.
  //

  /** The stream has ended and no key is open. */
  predicate Finished(c: Core) {
    c.total != [] && c.total[|c.total| - 1].kind.StreamEndToken? && forall i | 0 <= i < |c.keys| :: !c.keys[i].possible
  }

  /** Fetching everything fails, or ends before the stream does. */
  predicate Fails(xs: seq<Lexeme>) {
    FetchAll(STARTED, true, xs).Some? ==> !Finished(FetchAll(STARTED, true, xs).value.core)
  }

  /** What the scanner holds after `n` lexemes is what fetching them gives. */
  ghost predicate Keeping(xs: seq<Lexeme>, n: nat, c: Core, allowed: bool, mark: Mark) {
    && n <= |xs| && FetchAll(STARTED, true, xs[..n]).Some? && FetchAll(STARTED, true, xs[..n]).value.allowed == allowed
    && Ahead(FetchAll(STARTED, true, xs[..n]).value.core, c, mark) && (n < |xs| ==> Later(mark, xs[n].token.start))
  }

  ghost predicate InStep(xs: seq<Lexeme>, n: nat, c: Core, allowed: bool, mark: Mark, failed: bool) {
    Forward(xs) ==>
      if failed then Fails(xs)
      else if c.started then Keeping(xs, n, c, allowed, mark)
      else n == 0 && mark == Mark(0, 0, 0) && c.parsed == 0
  }

  lemma BeforeStart(xs: seq<Lexeme>, n: nat, c: Core, allowed: bool, mark: Mark)
    requires InStep(xs, n, c, allowed, mark, false) && !c.started
    ensures Forward(xs) ==> n == 0 && mark == Mark(0, 0, 0) && c.parsed == 0
  {
  }

  lemma StartInStep(xs: seq<Lexeme>, c: Core, mark: Mark)
    requires Forward(xs) ==> c == STARTED && mark == Mark(0, 0, 0)
    ensures InStep(xs, 0, c, true, mark, false)
  {
    assert xs[..0] == [];
    FetchAllNone(STARTED, true);
  }

  lemma FetchAllSnoc(xs: seq<Lexeme>, n: nat)
    requires n < |xs|
    ensures FetchAll(STARTED, true, xs[..n + 1])
         == match FetchAll(STARTED, true, xs[..n]) case None => None case Some(a) => Fetched(a.core, a.allowed, xs[n])
    ensures FetchAll(STARTED, true, xs[..n + 1]).None? ==> FetchAll(STARTED, true, xs).None?
  {
    hide FetchAll, Fetched;
    assert xs[..n + 1] == xs[..n] + [xs[n]];
    FetchAllConcat(STARTED, true, xs[..n], [xs[n]]);
    match FetchAll(STARTED, true, xs[..n]) {
      case None =>
      case Some(a) => FetchAllOne(a.core, a.allowed, xs[n]);
    }
    assert xs == xs[..n + 1] + xs[n + 1..];
    FetchAllConcat(STARTED, true, xs[..n + 1], xs[n + 1..]);
  }

  lemma FailedInStep(xs: seq<Lexeme>, n: nat, c: Core, allowed: bool, mark: Mark)
    ensures Fails(xs) || !Forward(xs) ==> InStep(xs, n, c, allowed, mark, true)
  {
  }

  lemma StartedBySome(c: Core)
    requires Good(c)
    ensures c.total != [] || c.flowLevel > 0 ==> c.started
  {
  }

  lemma SamePrefix(a: seq<Token>, b: seq<Token>, n: nat)
    requires n <= |a| && n <= |b| && a[..n] == b[..n]
    ensures n > 0 ==> a[n - 1] == b[n - 1]
  {
    if n > 0 { assert a[..n][n - 1] == b[..n][n - 1]; }
  }

  /** One lexeme on. */
  lemma StepInStep(xs: seq<Lexeme>, n: nat, c: Core, allowed: bool, mark: Mark)
    requires InStep(xs, n, c, allowed, mark, false) && c.started && n < |xs|
    ensures Fetched(c, allowed, xs[n]) == None ==> Fails(xs) || !Forward(xs)
    ensures match Fetched(c, allowed, xs[n])
            case None => true
            case Some(a) => a.core.started ==> InStep(xs, n + 1, a.core, a.allowed, EndOf(xs[n]), false)
  {
    hide FetchAll, Fetched;
    if Forward(xs) {
      var e := FetchAll(STARTED, true, xs[..n]).value;
      FetchInStep(e.core, c, mark, allowed, xs[n]);
      FetchAllSnoc(xs, n);
    }
  }

  /** Keys dropped between two lexemes. */
  lemma StaleInStep(xs: seq<Lexeme>, n: nat, c: Core, allowed: bool, mark: Mark)
    requires InStep(xs, n, c, allowed, mark, false) && c.started
    ensures !Overdue(c.keys, mark) ==> InStep(xs, n, Refreshed(c, mark), allowed, mark, false)
    ensures Overdue(c.keys, mark) ==> Fails(xs) || !Forward(xs)
  {
    hide FetchAll, Fetched;
    if Forward(xs) {
      var e := FetchAll(STARTED, true, xs[..n]).value;
      if !Overdue(c.keys, mark) {
        RefreshInStep(e.core, c, mark);
      } else if n < |xs| {
        OverdueInStep(e.core, c, mark, allowed, xs[n]);
        FetchAllSnoc(xs, n);
      } else {
        assert xs[..n] == xs;
      }
    }
  }

  /** All lexemes have been taken, and the last token delivered does not end the stream or a key is still open. */
  lemma UnfinishedInStep(xs: seq<Lexeme>, c: Core, allowed: bool, mark: Mark)
    requires InStep(xs, |xs|, c, allowed, mark, false) && c.started
    requires c.total == [] || !c.total[|c.total| - 1].kind.StreamEndToken? || exists i :: 0 <= i < |c.keys| && c.keys[i].possible
    ensures Fails(xs) || !Forward(xs)
  {
    hide FetchAll;
    assert xs[..|xs|] == xs;
  }

  lemma DeliverInStep(xs: seq<Lexeme>, n: nat, c: Core, allowed: bool, mark: Mark)
    requires InStep(xs, n, c, allowed, mark, false) && c.started
    ensures InStep(xs, n, c.(parsed := c.parsed + 1), allowed, mark, false)
  {
    hide FetchAll;
  }

  //
  // The end of the stream.
  //

  predicate NoEnd(ts: seq<Token>) { forall i | 0 <= i < |ts| :: !ts[i].kind.StreamEndToken? }

  /** Only the last lexeme ends the stream. */
  predicate EndsOnce(xs: seq<Lexeme>) {
    xs != [] && xs[|xs| - 1].kind.AtStreamEnd? && forall i | 0 <= i < |xs| - 1 :: !xs[i].kind.AtStreamEnd?
  }

  lemma FetchNoEnd(c: Core, allowed: bool, x: Lexeme)
    requires NoEnd(c.total) && Fetched(c, allowed, x).Some?
    ensures var total := Fetched(c, allowed, x).value.core.total;
      if x.kind.AtStreamEnd? then total != [] && NoEnd(total[..|total| - 1]) && total[|total| - 1].kind.StreamEndToken?
      else NoEnd(total)
  {
    hide Shut, Overdue, Refreshed, Dispatched;
    var mark := x.token.start;
    var r := Refreshed(c, mark);
    RefreshedTotal(c, mark);
    ShutNoEnd(r, mark.column, mark);
    DispatchNoEnd(Shut(r, mark.column, mark), allowed || (x.newline && c.flowLevel == 0), mark, x);
  }

  lemma RefreshedTotal(c: Core, mark: Mark)
    ensures Refreshed(c, mark).total == c.total
  {
  }

  lemma DispatchNoEnd(d: Core, allowed: bool, mark: Mark, x: Lexeme)
    requires NoEnd(d.total) && Dispatched(d, allowed, mark, x).Some?
    ensures var total := Dispatched(d, allowed, mark, x).value.core.total;
      if x.kind.AtStreamEnd? then total != [] && NoEnd(total[..|total| - 1]) && total[|total| - 1].kind.StreamEndToken?
      else NoEnd(total)
  {
    hide Shut, KeyDue, DroppedKeys, SavedKeys, LastKeyPossible, Turned, NoEnd, EndMark, Rolled;
    ShutNoEnd(d, -1, mark);
    ShutNoEnd(d, -1, EndMark(mark));
    TurnedNoEnd(d);
    RolledNoEnd(d, BlockSequenceStartToken, mark);
    RolledNoEnd(d, BlockMappingStartToken, mark);
    match x.kind {
      case AtStreamEnd => var ts := Shut(d, -1, EndMark(mark)).total; OneMore(ts, PlainToken(StreamEndToken, EndMark(mark)));
      case AtDirective => OneMore(Shut(d, -1, mark).total, x.token);
      case AtDocumentIndicator => OneMore(Shut(d, -1, mark).total, x.token);
      case AtBlockEntry => OneMore(Rolled(d, BlockSequenceStartToken, mark).total, x.token);
      case AtKey => OneMore(Rolled(d, BlockMappingStartToken, mark).total, x.token);
      case AtValue =>
        OneMore(Turned(d).total, x.token);
        OneMore(Rolled(d, BlockMappingStartToken, mark).total, x.token);
      case _ => OneMore(d.total, x.token);
    }
  }

  lemma OneMore(ts: seq<Token>, t: Token)
    requires NoEnd(ts)
    ensures (ts + [t])[..|ts + [t]| - 1] == ts && (!t.kind.StreamEndToken? ==> NoEnd(ts + [t]))
  {
    assert (ts + [t])[..|ts|] == ts;
  }

  lemma RolledNoEnd(c: Core, kind: TokenKind, mark: Mark)
    requires NoEnd(c.total) && !kind.StreamEndToken?
    ensures NoEnd(Rolled(c, kind, mark).total)
  {
  }

  lemma ShutNoEnd(c: Core, column: int, mark: Mark)
    requires NoEnd(c.total)
    ensures NoEnd(Shut(c, column, mark).total)
  {
  }

  lemma TurnedNoEnd(c: Core)
    requires NoEnd(c.total)
    ensures NoEnd(Turned(c).total)
  {
    hide LastKeyPossible;
  }

  /** STREAM-END is the last token, and there is none before the last lexeme. */
  lemma {:induction false} EndIsLast(xs: seq<Lexeme>, n: nat)
    requires EndsOnce(xs) && n <= |xs| && FetchAll(STARTED, true, xs[..n]).Some?
    ensures var total := FetchAll(STARTED, true, xs[..n]).value.core.total;
      if n == |xs| then total != [] && NoEnd(total[..|total| - 1]) else NoEnd(total)
    decreases n
  {
    hide FetchAll, Fetched;
    if n == 0 {
      assert xs[..0] == [];
      FetchAllNone(STARTED, true);
    } else {
      FetchAllSnoc(xs, n - 1);
      EndIsLast(xs, n - 1);
      var e := FetchAll(STARTED, true, xs[..n - 1]).value;
      FetchNoEnd(e.core, e.allowed, xs[n - 1]);
    }
  }
}
