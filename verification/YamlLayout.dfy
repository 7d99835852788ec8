/**
 How a document may be laid out: which lexemes write a source, and where they stand. Block collections start
 deeper than the block around them, their entries in one column on fresh lines; a simple key and its colon
 are on one line, at most 1024 characters apart; inside brackets anything goes.
 */
module YamlLayout {
  import opened YamlEvents
  import opened YamlTokens
  import opened YamlScanCore
  import opened YamlSource
  import opened YamlEager

  predicate Is(x: Lexeme, kind: Kind, token: TokenKind) { x.kind == kind && Unplaced(x.token) == Plainly(token) }

  /** Anchors, tags, aliases and scalars that are these tokens. */
  predicate Says(ls: seq<Lexeme>, ts: seq<Token>) {
    |ls| == |ts| && forall i :: 0 <= i < |ls| ==> ls[i].kind.AtContent? && ls[i].ok && Unplaced(ls[i].token) == ts[i]
  }

  function PropsOf(x: Source): seq<Token> {
    match x
    case Bare(p) => PropertyTokens(p)
    case Text(p, _, _) => PropertyTokens(p)
    case Items(p, _, _) => PropertyTokens(p)
    case Pairs(p, _, _) => PropertyTokens(p)
    case _ => []
  }

  //
  // Inside brackets, or without them on one level.
  //

  ghost predicate FlowWritten(x: Source, ls: seq<Lexeme>)
    decreases x, 1
  {
    match x
    case Nothing => ls == []
    case AliasOf(_) => Says(ls, Spelled(x))
    case Bare(_) => Says(ls, Spelled(x))
    case Text(_, _, _) => Says(ls, Spelled(x))
    case Items(p, form, items) =>
      var n := |PropertyTokens(p)|;
      && form.InFlow? && n < |ls| && Says(ls[..n], PropertyTokens(p))
      && Is(ls[n], AtFlowStart, FlowSequenceStartToken) && ItemsWritten(items, true, form.comma, ls[n + 1..])
    case Pairs(p, form, entries) =>
      var n := |PropertyTokens(p)|;
      && form.InFlow? && n < |ls| && Says(ls[..n], PropertyTokens(p))
      && Is(ls[n], AtFlowStart, FlowMappingStartToken) && EntriesWritten(entries, true, form.comma, ls[n + 1..])
    case Single(_) => false
  }

  /** An item of a flow sequence can also be a single pair. */
  ghost predicate ItemWritten(x: Source, ls: seq<Lexeme>)
    decreases x, 2
  {
    if x.Single? then EntryWritten(x.entry, ls) else FlowWritten(x, ls)
  }

  predicate EndWritten(comma: bool, end: TokenKind, ls: seq<Lexeme>) {
    if comma then |ls| == 2 && Is(ls[0], AtFlowEntry, FlowEntryToken) && Is(ls[1], AtFlowEnd, end)
    else |ls| == 1 && Is(ls[0], AtFlowEnd, end)
  }

  /** A comma in front of an entry that is not the first. */
  predicate Separated(first: bool, ls: seq<Lexeme>) { first || (ls != [] && Is(ls[0], AtFlowEntry, FlowEntryToken)) }

  function Behind(first: bool, ls: seq<Lexeme>): seq<Lexeme> { if first || ls == [] then ls else ls[1..] }

  ghost predicate ItemsWritten(xs: seq<Source>, first: bool, comma: bool, ls: seq<Lexeme>)
    decreases xs, 0
  {
    if xs == [] then EndWritten(comma, FlowSequenceEndToken, ls)
    else
      && Separated(first, ls)
      && exists k: nat :: k <= |Behind(first, ls)|
           && ItemWritten(xs[0], Behind(first, ls)[..k]) && ItemsWritten(xs[1..], false, comma, Behind(first, ls)[k..])
  }

  ghost predicate EntriesWritten(es: seq<Entry>, first: bool, comma: bool, ls: seq<Lexeme>)
    decreases es, 0
  {
    if es == [] then EndWritten(comma, FlowMappingEndToken, ls)
    else
      && Separated(first, ls)
      && exists k: nat :: k <= |Behind(first, ls)|
           && EntryWritten(es[0], Behind(first, ls)[..k]) && EntriesWritten(es[1..], false, comma, Behind(first, ls)[k..])
  }

  /** A pair: a key alone, a simple key with its colon close behind, or a question mark and a key. */
  ghost predicate EntryWritten(e: Entry, ls: seq<Lexeme>)
    decreases e, 1
  {
    if e.lone then !e.marked && FlowWritten(e.key, ls)
    else
      || (e.marked && exists k: nat :: SimpleAt(e, ls, k))
      || (ls != [] && Is(ls[0], AtKey, KeyToken)
          && if e.marked then exists k: nat :: ExplicitAt(e, ls, k) else FlowWritten(e.key, ls[1..]))
  }

  ghost predicate SimpleAt(e: Entry, ls: seq<Lexeme>, k: nat)
    decreases e, 0
  {
    && 0 < k < |ls| && FlowWritten(e.key, ls[..k]) && Is(ls[k], AtValue, ValueToken)
    && Near(ls[0].token.start, ls[..k + 1]) && FlowWritten(e.value, ls[k + 1..])
  }

  ghost predicate ExplicitAt(e: Entry, ls: seq<Lexeme>, k: nat)
    decreases e, 0
  {
    1 <= k < |ls| && FlowWritten(e.key, ls[1..k]) && Is(ls[k], AtValue, ValueToken) && FlowWritten(e.value, ls[k + 1..])
  }

  //
  // Outside brackets, in a block at column `p`.
  //

  predicate DeeperThan(p: int, ls: seq<Lexeme>) { forall i | 0 <= i < |ls| :: ls[i].token.start.column > p }

  /** A key may start here: allowed by what is before it, or first on its line. */
  predicate MayStart(allowed: bool, x: Lexeme) { allowed || x.newline }

  /** The lexemes of a node before and with its text or bracket. */
  function Front(x: Source, ls: seq<Lexeme>): seq<Lexeme> {
    if |ls| <= |PropsOf(x)| then ls else ls[..|PropsOf(x)| + 1]
  }

  /** A scalar, an alias, bare properties, or a flow collection. */
  ghost predicate WordWritten(x: Source, ls: seq<Lexeme>, p: int) {
    ls != [] && FlowWritten(x, ls) && DeeperThan(p, Front(x, ls))
  }

  /** A literal or folded scalar. */
  predicate BlockTextWritten(x: Source, ls: seq<Lexeme>, p: int) {
    x.Text? &&
    var n := |PropertyTokens(x.props)|;
    && |ls| == n + 1 && Says(ls[..n], PropertyTokens(x.props)) && DeeperThan(p, ls)
    && ls[n].kind.AtBlockScalar? && ls[n].ok && Unplaced(ls[n].token) == Plainly(ScalarToken).(value := x.value, style := x.style)
  }

  /** `allowed` when a key may start right behind what is before the node. */
  ghost predicate BlockWritten(x: Source, ls: seq<Lexeme>, p: int, allowed: bool)
    decreases x, 3
  {
    match x
    case Nothing => ls == []
    case Single(_) => false
    case Items(props, form, items) =>
      if form.InFlow? then WordWritten(x, ls, p)
      else
        && PropsBefore(props, ls, p) && items != []
        && var n := |PropertyTokens(props)|;
           var q := ls[n].token.start.column;
           && (if form.InBlock? then q > p else q == p)
           && MayStart(n == 0 && allowed, ls[n]) && DashesWritten(items, q, ls[n..])
    case Pairs(props, form, entries) =>
      if form.InFlow? then WordWritten(x, ls, p)
      else
        && form.InBlock? && PropsBefore(props, ls, p) && entries != []
        && var n := |PropertyTokens(props)|;
           var q := ls[n].token.start.column;
           q > p && MayStart(n == 0 && allowed, ls[n]) && RowsWritten(entries, q, ls[n..])
    case _ => WordWritten(x, ls, p) || BlockTextWritten(x, ls, p)
  }

  /** Properties in front of a block collection, which is on a fresh line then. */
  predicate PropsBefore(p: Properties, ls: seq<Lexeme>, column: int) {
    |PropertyTokens(p)| < |ls| && Says(ls[..|PropertyTokens(p)|], PropertyTokens(p)) && DeeperThan(column, ls[..|PropertyTokens(p)|])
  }

  /** The items of a block sequence, behind dashes in one column. */
  ghost predicate DashesWritten(xs: seq<Source>, q: int, ls: seq<Lexeme>)
    decreases xs, 0
  {
    if xs == [] then ls == []
    else
      && ls != [] && Is(ls[0], AtBlockEntry, BlockEntryToken) && ls[0].token.start.column == q
      && exists k: nat :: 1 <= k <= |ls|
           && BlockWritten(xs[0], ls[1..k], q, true) && (k < |ls| ==> ls[k].newline) && DashesWritten(xs[1..], q, ls[k..])
  }

  /** The entries of a block mapping, which start in one column. */
  ghost predicate RowsWritten(es: seq<Entry>, q: int, ls: seq<Lexeme>)
    decreases es, 0
  {
    if es == [] then ls == []
    else
      exists k: nat :: 1 <= k <= |ls| && ls[0].token.start.column == q
        && RowWritten(es[0], q, ls[..k]) && (k < |ls| ==> ls[k].newline) && RowsWritten(es[1..], q, ls[k..])
  }

  ghost predicate RowWritten(e: Entry, q: int, ls: seq<Lexeme>)
    decreases e, 1
  {
    && !e.lone && ls != []
    && ((e.marked && exists k: nat :: PlainRowAt(e, q, ls, k)) || (Is(ls[0], AtKey, KeyToken) && exists k: nat :: QuestionRowAt(e, q, ls, k)))
  }

  predicate OneLine(ls: seq<Lexeme>) {
    ls != [] && Near(ls[0].token.start, ls) && forall i | 0 < i < |ls| :: !ls[i].newline
  }

  /** A simple key and its colon on one line, then the value. */
  ghost predicate PlainRowAt(e: Entry, q: int, ls: seq<Lexeme>, k: nat)
    decreases e, 0
  {
    && 0 < k < |ls| && FlowWritten(e.key, ls[..k]) && Is(ls[k], AtValue, ValueToken)
    && OneLine(ls[..k + 1]) && DeeperThan(q, ls[1..k + 1]) && BlockWritten(e.value, ls[k + 1..], q, false)
  }

  /** The lexeme is on a line below these. */
  predicate Below(x: Lexeme, ls: seq<Lexeme>) { forall i | 0 <= i < |ls| :: ls[i].token.start.line < x.token.start.line }

  /** A key behind a question mark, and perhaps a value behind a colon in the same column. */
  ghost predicate QuestionRowAt(e: Entry, q: int, ls: seq<Lexeme>, k: nat)
    decreases e, 0
  {
    && 1 <= k <= |ls| && BlockWritten(e.key, ls[1..k], q, true)
    && if e.marked then
         && k < |ls| && Is(ls[k], AtValue, ValueToken) && ls[k].token.start.column == q && ls[k].newline
         && Below(ls[k], ls[1..k]) && BlockWritten(e.value, ls[k + 1..], q, true)
       else k == |ls|
  }

  //
  // Documents.
  //

  /** Indicators at the start of a line. */
  predicate Indicates(ls: seq<Lexeme>, n: nat, token: TokenKind) {
    |ls| == n && forall i | 0 <= i < n :: Is(ls[i], AtDocumentIndicator, token) && ls[i].token.start.column == 0
  }

  predicate DirectivesWritten(ls: seq<Lexeme>, ds: seq<Token>) {
    |ls| == |ds| && forall i :: 0 <= i < |ls| ==> ls[i].kind.AtDirective? && ls[i].ok && Unplaced(ls[i].token) == ds[i]
  }

  /** `h` is where the root starts and `k` where it ends. */
  ghost predicate DocAt(doc: DocSource, ls: seq<Lexeme>, h: nat, k: nat) {
    && h <= k <= |ls|
    && (if doc.explicit then
          && h == |doc.directives| + 1 && DirectivesWritten(ls[..h - 1], doc.directives)
          && Indicates([ls[h - 1]], 1, DocumentStartToken)
        else h == 0)
    && BlockWritten(doc.root, ls[h..k], -1, !doc.explicit) && Indicates(ls[k..], doc.ends, DocumentEndToken)
  }

  ghost predicate DocWritten(doc: DocSource, ls: seq<Lexeme>) { exists h: nat, k: nat :: DocAt(doc, ls, h, k) }

  /** Only the first document can do without `---`. */
  ghost predicate StreamWritten(docs: seq<DocSource>, ls: seq<Lexeme>, first: bool) {
    if docs == [] then |ls| == 1 && ls[0].kind.AtStreamEnd?
    else
      && (docs[0].explicit || first)
      && exists k: nat :: k <= |ls| && DocWritten(docs[0], ls[..k]) && StreamWritten(docs[1..], ls[k..], false)
  }
}
