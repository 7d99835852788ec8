/**
 The event parser: a pushdown machine over the scanner's tokens.

 The tokens the scanner will deliver are a field of the parser; running past their end stands for a
 scanner failure.  Marks are kept only where the parser itself stores them, on its `marks` stack.
 */
module YamlParser {
  import opened Wrappers
  import opened YamlEvents
  import opened YamlTokens
  import opened YamlDirectives
  import opened YamlMoves

  datatype Problem =
    | ScannerFailed
    | NoStreamStart | NoDocumentStart | DuplicateVersion | IncompatibleVersion | DuplicateTagDirective
    | UndefinedTagHandle | NoNodeContent | NoBlockEntry | NoBlockKey | NoFlowSequenceSeparator | NoFlowMappingSeparator

  datatype Outcome = Got(event: Event) | NoEvent | Failed

  //
  // What the control state means.
  //

  predicate InDocument(s: State) {
    !(s.StreamStartState? || s.ImplicitDocumentStartState? || s.DocumentStartState? || s.DocumentEndState? || s.EndState?)
  }

  /** States that are pushed as continuations above the bottom DOCUMENT-END. */
  predicate IsContinuation(s: State) {
    s.BlockSequenceEntryState? || s.IndentlessSequenceEntryState? || s.BlockMappingKeyState? || s.BlockMappingValueState?
    || s.FlowSequenceEntryState? || s.FlowSequenceEntryMappingValueState? || s.FlowSequenceEntryMappingEndState?
    || s.FlowMappingKeyState? || s.FlowMappingValueState? || s.FlowMappingEmptyValueState?
  }

  ghost predicate StackOk(states: seq<State>) {
    |states| >= 1 && states[0] == DocumentEndState && forall i | 1 <= i < |states| :: IsContinuation(states[i])
  }

  /** The nesting levels a state stands for, on top of those below it. */
  function Expects(s: State, below: Levels): Levels {
    match s
    case StreamStartState => Level(ExpStream, below)
    case ImplicitDocumentStartState => Level(ExpDocument, below)
    case DocumentStartState => Level(ExpDocument, below)
    case DocumentContentState => Level(ExpRoot, below)
    case BlockNodeState => Level(ExpRoot, below)
    case DocumentEndState => Level(ExpDocEnd, below)
    case BlockSequenceFirstEntryState => Level(ExpItem, below)
    case BlockSequenceEntryState => Level(ExpItem, below)
    case IndentlessSequenceEntryState => Level(ExpItem, below)
    case FlowSequenceFirstEntryState => Level(ExpItem, below)
    case FlowSequenceEntryState => Level(ExpItem, below)
    case BlockMappingFirstKeyState => Level(ExpKey, below)
    case BlockMappingKeyState => Level(ExpKey, below)
    case BlockMappingValueState => Level(ExpValue, below)
    case FlowMappingFirstKeyState => Level(ExpKey, below)
    case FlowMappingKeyState => Level(ExpKey, below)
    case FlowMappingValueState => Level(ExpValue, below)
    case FlowMappingEmptyValueState => Level(ExpValue, below)
    // A single pair inside a flow sequence: the sequence itself is not on the stack.
    case FlowSequenceEntryMappingKeyState => Level(ExpKey, Level(ExpItem, below))
    case FlowSequenceEntryMappingValueState => Level(ExpValue, Level(ExpItem, below))
    case FlowSequenceEntryMappingEndState => Level(ExpKey, Level(ExpItem, below))
    case EndState => below
  }

  function LevelsOf(states: seq<State>): Levels {
    if states == [] then Closed else Expects(states[|states| - 1], LevelsOf(states[..|states| - 1]))
  }

  /** Marks saved while a state is current or pending: one per started block or flow collection. */
  function MarksOf(s: State): nat {
    if s.BlockSequenceEntryState? || s.BlockMappingKeyState? || s.BlockMappingValueState?
       || s.FlowSequenceEntryState? || s.FlowSequenceEntryMappingKeyState? || s.FlowSequenceEntryMappingValueState?
       || s.FlowSequenceEntryMappingEndState? || s.FlowMappingKeyState? || s.FlowMappingValueState?
       || s.FlowMappingEmptyValueState?
    then 1 else 0
  }

  function MarkCount(states: seq<State>): nat {
    if states == [] then 0 else MarkCount(states[..|states| - 1]) + MarksOf(states[|states| - 1])
  }

  /** Events a state may still produce without consuming a token. */
  function Slack(s: State): nat {
    match s
    case ImplicitDocumentStartState => 4
    case DocumentContentState => 2
    case BlockNodeState => 2
    case DocumentEndState => 1
    case IndentlessSequenceEntryState => 1
    case BlockMappingValueState => 1
    case FlowSequenceEntryMappingKeyState => 3
    case FlowSequenceEntryMappingValueState => 2
    case FlowSequenceEntryMappingEndState => 1
    case FlowMappingValueState => 1
    case FlowMappingEmptyValueState => 1
    case _ => 0
  }

  function TotalSlack(states: seq<State>): nat {
    if states == [] then 0 else TotalSlack(states[..|states| - 1]) + Slack(states[|states| - 1])
  }

  /** The token that must still be at the head in a "first" state. */
  function FirstToken(s: State): Option<TokenKind> {
    match s
    case BlockSequenceFirstEntryState => Some(BlockSequenceStartToken)
    case BlockMappingFirstKeyState => Some(BlockMappingStartToken)
    case FlowSequenceFirstEntryState => Some(FlowSequenceStartToken)
    case FlowMappingFirstKeyState => Some(FlowMappingStartToken)
    case _ => None
  }

  //
  // The text carried from tokens to events.
  //

  datatype Item = AnchorItem(name: Bytes) | AliasItem(name: Bytes) | TextItem(text: Bytes, style: ScalarStyle)

  function TokenItems(t: Token): seq<Item> {
    match t.kind
    case AnchorToken => [AnchorItem(t.value)]
    case AliasToken => [AliasItem(t.value)]
    case ScalarToken => if t.value == [] then [] else [TextItem(t.value, t.style)]
    case _ => []
  }

  function AnchorItems(a: Option<Bytes>): seq<Item> {
    if a.Some? then [AnchorItem(a.value)] else []
  }

  function TextItems(e: Event): seq<Item> {
    if e.Scalar? && e.value != [] then [TextItem(e.value, e.style)] else []
  }

  function EventItems(e: Event): seq<Item> {
    match e
    case Alias(a) => [AliasItem(a)]
    case Scalar(a, _, _, _, _, _) => AnchorItems(a) + TextItems(e)
    case SequenceStart(a, _, _, _) => AnchorItems(a)
    case MappingStart(a, _, _, _) => AnchorItems(a)
    case _ => []
  }

  /** The anchors, aliases and non-empty scalar texts of the first `n` tokens, in order. */
  function ConsumedItems(tokens: seq<Token>, n: nat): seq<Item>
    requires n <= |tokens|
  {
    if n == 0 then [] else ConsumedItems(tokens, n - 1) + TokenItems(tokens[n - 1])
  }

  function EmittedItems(events: seq<Event>): seq<Item> {
    if events == [] then [] else EmittedItems(events[..|events| - 1]) + EventItems(events[|events| - 1])
  }

  //
  // The properties of nodes.
  //

  lemma StackSome(states: seq<State>)
    requires StackOk(states)
    ensures states != []
  {
  }

  lemma NothingMove(tokens: seq<Token>, from: nat, states: seq<State>, tags: seq<TagDirective>, block: bool, indentless: bool)
    requires from >= |tokens|
    ensures NodeMove(tokens, from, states, tags, block, indentless) == Stuck
  {
  }

  lemma CutOffMove(tokens: seq<Token>, from: nat, states: seq<State>, tags: seq<TagDirective>, block: bool, indentless: bool)
    requires PropertiesAt(tokens, from).0 >= |tokens|
    ensures NodeMove(tokens, from, states, tags, block, indentless) == Stuck
  {
    hide ResolveTag;
  }

  lemma AliasMove(tokens: seq<Token>, h: nat, states: seq<State>, tags: seq<TagDirective>, block: bool, indentless: bool)
    requires Is(tokens, h, AliasToken) && StackOk(states)
    ensures NodeMove(tokens, h, states, tags, block, indentless) == Move(Alias(tokens[h].value), Popped(h + 1, states, tags))
  {
  }

  lemma LocatedMove(tokens: seq<Token>, from: nat, states: seq<State>, tags: seq<TagDirective>, block: bool, indentless: bool)
    requires from < |tokens| && !tokens[from].kind.AliasToken? && StackOk(states)
    ensures var (h, anchor, tagToken) := PropertiesAt(tokens, from);
            NodeMove(tokens, from, states, tags, block, indentless)
            == match ResolveTag(tags, tagToken)
               case None => Stuck
               case Some(tag) => ContentMove(tokens, h, states, tags, anchor, tag, block, indentless)
  {
    hide ContentMove, ResolveTag;
  }

  //
  // Snapshots of the parser's fields, and what productions keep.
  //

  /** The outcome is that of the move, and a failure where there is none. */
  ghost predicate Follows(m: Move, r: Outcome, c: Config) {
    match m
    case Stuck => r.Failed?
    case Move(e, next) => r == Got(e) && c == next
  }

  /** What the invariant says inside a document, without the rest of it. */
  lemma InsideFacts(tokens: seq<Token>, s: Snapshot)
    requires Inv(tokens, s) && InDocument(s.state)
    ensures s.head <= |tokens| && s.error.None? && !s.streamEndProduced
    ensures StackOk(s.states) && |s.marks| == MarkCount(s.states) + MarksOf(s.state)
    ensures FirstToken(s.state).Some? ==> s.head < |tokens| && tokens[s.head].kind == FirstToken(s.state).value
  {
    hide MarkCount, StackOk;
  }

  /** Conversely, for states that do not start a collection. */
  lemma InsideInv(tokens: seq<Token>, s: Snapshot)
    requires InDocument(s.state) && FirstToken(s.state).None?
    requires s.head <= |tokens| && s.error.None? && !s.streamEndProduced
    requires StackOk(s.states) && |s.marks| == MarkCount(s.states) + MarksOf(s.state)
    ensures Inv(tokens, s)
  {
    hide MarkCount, StackOk;
  }

  lemma CloseFollows(e: Event, h: nat, states: seq<State>, tags: seq<TagDirective>, c: Config)
    requires states != [] && c == Popped(h + 1, states, tags)
    ensures Follows(CloseMove(e, h, states, tags), Got(e), c)
  {
  }

  lemma FlowKeyFollows(tokens: seq<Token>, c0: Config, first: bool, h: nat, r: Outcome, c: Config)
    requires FlowEntryAt(tokens, c0, first, FlowMappingEndToken) == Some(h) && h < |tokens|
    requires tokens[h].kind.KeyToken? && h + 1 >= |tokens| ==> r.Failed?
    requires tokens[h].kind.KeyToken? && h + 1 < |tokens| ==>
               Follows(NodeOrEmptyMove(tokens, h + 1, c0.states, c0.tags,
                                       (Is(tokens, h + 1, ValueToken) || Is(tokens, h + 1, FlowEntryToken) || Is(tokens, h + 1, FlowMappingEndToken)),
                                       FlowMappingValueState, false, false), r, c)
    requires tokens[h].kind.FlowMappingEndToken? ==> Follows(CloseMove(MappingEnd, h, c0.states, c0.tags), r, c)
    requires !tokens[h].kind.KeyToken? && !tokens[h].kind.FlowMappingEndToken? ==>
               Follows(NodeOrEmptyMove(tokens, h, c0.states, c0.tags, false, FlowMappingEmptyValueState, false, false), r, c)
    ensures Follows(FlowKeyMove(tokens, c0, first), r, c)
  {
    hide NodeOrEmptyMove, CloseMove, FlowEntryAt;
  }

  lemma FlowItemFollows(tokens: seq<Token>, c0: Config, first: bool, h: nat, r: Outcome, c: Config)
    requires FlowEntryAt(tokens, c0, first, FlowSequenceEndToken) == Some(h) && h < |tokens|
    requires tokens[h].kind.KeyToken? ==>
               r == Got(MappingStart(None, [], true, Flow)) && c == Config(h + 1, FlowSequenceEntryMappingKeyState, c0.states, c0.tags)
    requires tokens[h].kind.FlowSequenceEndToken? ==> Follows(CloseMove(SequenceEnd, h, c0.states, c0.tags), r, c)
    requires !tokens[h].kind.KeyToken? && !tokens[h].kind.FlowSequenceEndToken? ==>
               Follows(NodeOrEmptyMove(tokens, h, c0.states, c0.tags, false, FlowSequenceEntryState, false, false), r, c)
    ensures Follows(FlowSequenceMove(tokens, c0, first), r, c)
  {
    hide NodeOrEmptyMove, CloseMove, FlowEntryAt;
  }

  lemma NoEntryFollows(tokens: seq<Token>, c0: Config, first: bool, c: Config)
    ensures FlowEntryAt(tokens, c0, first, FlowMappingEndToken) == None ==> Follows(FlowKeyMove(tokens, c0, first), Failed, c)
    ensures FlowEntryAt(tokens, c0, first, FlowSequenceEndToken) == None ==> Follows(FlowSequenceMove(tokens, c0, first), Failed, c)
  {
    hide NodeOrEmptyMove, CloseMove, FlowEntryAt;
  }

  lemma BlockItemFollows(tokens: seq<Token>, c0: Config, first: bool, r: Outcome, c: Config)
    requires var h := if first then c0.head + 1 else c0.head;
             && (Is(tokens, h, BlockEntryToken) && h + 1 < |tokens| ==>
                   Follows(NodeOrEmptyMove(tokens, h + 1, c0.states, c0.tags,
                                           (Is(tokens, h + 1, BlockEntryToken) || Is(tokens, h + 1, BlockEndToken)),
                                           BlockSequenceEntryState, true, false), r, c))
             && (Is(tokens, h, BlockEntryToken) && h + 1 >= |tokens| ==> r.Failed?)
             && (Is(tokens, h, BlockEndToken) ==> Follows(CloseMove(SequenceEnd, h, c0.states, c0.tags), r, c))
             && (!Is(tokens, h, BlockEntryToken) && !Is(tokens, h, BlockEndToken) ==> r.Failed?)
    ensures Follows(BlockSequenceMove(tokens, c0, first), r, c)
  {
    hide NodeOrEmptyMove, CloseMove;
  }

  lemma NoStartFollows(tokens: seq<Token>, c0: Config, c: Config)
    requires c0.head <= |tokens|
    ensures c0.head == |tokens| ==> Follows(DocumentStartMove(tokens, c0, true), Failed, c)
    ensures PastDocumentEnds(tokens, c0.head) == |tokens| ==> Follows(DocumentStartMove(tokens, c0, false), Failed, c)
  {
    hide ExplicitStartMove, WithDefaults;
  }

  /** The start of a document, or the end of the stream, with the head at `h` past extra document ends. */
  lemma StartFollows(tokens: seq<Token>, c0: Config, implicit: bool, h: nat, r: Outcome, c: Config)
    requires c0.head <= |tokens| && h < |tokens| && h == if implicit then c0.head else PastDocumentEnds(tokens, c0.head)
    requires tokens[h].kind.StreamEndToken? ==> r == Got(StreamEnd) && c == Config(h + 1, EndState, c0.states, c0.tags)
    requires implicit && StartsImplicit(tokens[h].kind) ==>
               && r == Got(DocumentStart(None, [], false))
               && c == Config(h, BlockNodeState, c0.states + [DocumentEndState], WithDefaults(c0.tags))
    requires !tokens[h].kind.StreamEndToken? && !(implicit && StartsImplicit(tokens[h].kind)) ==>
               Follows(ExplicitStartMove(tokens, h, c0.states, c0.tags), r, c)
    ensures Follows(DocumentStartMove(tokens, c0, implicit), r, c)
  {
    hide ExplicitStartMove, WithDefaults;
  }

  datatype Snapshot = Snapshot(head: nat, state: State, states: seq<State>, marks: seq<Mark>,
                               streamEndProduced: bool, error: Option<Problem>)

  ghost predicate Inv(tokens: seq<Token>, s: Snapshot) {
    && s.head <= |tokens|
    && s.error.None?
    && (if InDocument(s.state) then StackOk(s.states) else s.states == [])
    && |s.marks| == MarkCount(s.states) + MarksOf(s.state)
    && (FirstToken(s.state).Some? ==> s.head < |tokens| && tokens[s.head].kind == FirstToken(s.state).value)
    && s.streamEndProduced == s.state.EndState?
  }

  ghost function Open(s: Snapshot): Levels { Expects(s.state, LevelsOf(s.states)) }

  /** Bounds the number of events still to come. */
  ghost function Measure(tokens: seq<Token>, s: Snapshot): int {
    5 * (|tokens| - s.head) + TotalSlack(s.states) + Slack(s.state)
  }

  ghost function Consumed(tokens: seq<Token>, s: Snapshot): seq<Item> {
    if s.head <= |tokens| then ConsumedItems(tokens, s.head) else []
  }

  /** What every production does to the parser when it yields `e`. */
  ghost predicate Produced(tokens: seq<Token>, s: Snapshot, s': Snapshot, e: Event) {
    && Inv(tokens, s')
    && Step(Open(s), e) == Some(Open(s'))
    && Measure(tokens, s') < Measure(tokens, s)
    && Consumed(tokens, s') == Consumed(tokens, s) + EventItems(e)
  }

  /** A node event has been read; the continuation on the stack follows the node. */
  ghost predicate NodeRead(tokens: seq<Token>, s: Snapshot, extra: nat, s': Snapshot, e: Event) {
    && Inv(tokens, s') && IsNode(e)
    && Open(s') == Opening(e, LevelsOf(s.states))
    && Consumed(tokens, s') == Consumed(tokens, s) + EventItems(e)
    && s'.head >= s.head
    && TotalSlack(s'.states) + Slack(s'.state) <= TotalSlack(s.states) + extra
    && (IsLeaf(e) ==> s'.head > s.head)
  }

  /** As `NodeRead`, when the properties were consumed before `s`. */
  ghost predicate ContentRead(tokens: seq<Token>, s: Snapshot, extra: nat, s': Snapshot, e: Event) {
    && Inv(tokens, s') && IsNode(e)
    && Open(s') == Opening(e, LevelsOf(s.states))
    && Consumed(tokens, s') == Consumed(tokens, s) + TextItems(e)
    && s'.head >= s.head
    && TotalSlack(s'.states) + Slack(s'.state) <= TotalSlack(s.states) + extra
  }

  lemma StartRead(tokens: seq<Token>, s: Snapshot, extra: nat, s': Snapshot, e: Event)
    requires Inv(tokens, s') && s'.states == s.states && s'.head == s.head
    requires e.SequenceStart? || e.MappingStart?
    requires e.SequenceStart? ==>
               s'.state.BlockSequenceFirstEntryState? || s'.state.FlowSequenceFirstEntryState?
               || (s'.state.IndentlessSequenceEntryState? && extra == 1)
    requires e.MappingStart? ==> s'.state.BlockMappingFirstKeyState? || s'.state.FlowMappingFirstKeyState?
    ensures ContentRead(tokens, s, extra, s', e)
  {
    hide ConsumedItems, LevelsOf, TotalSlack, MarkCount, StackOk, Inv;
  }

  lemma MoreSlack(tokens: seq<Token>, s: Snapshot, s': Snapshot, e: Event)
    requires ContentRead(tokens, s, 0, s', e)
    ensures ContentRead(tokens, s, 1, s', e)
  {
    hide ConsumedItems, LevelsOf, TotalSlack, Inv, Slack, Expects;
  }

  lemma PropertiesRead(tokens: seq<Token>, s: Snapshot, m: Snapshot, anchor: Option<Bytes>, extra: nat, s': Snapshot, e: Event)
    requires ContentRead(tokens, m, extra, s', e) && m.states == s.states && s.head <= m.head
    requires Consumed(tokens, m) == Consumed(tokens, s) + AnchorItems(anchor)
    requires !e.Alias? && e.anchorOpt == anchor
    requires IsLeaf(e) ==> s'.head > s.head
    ensures NodeRead(tokens, s, extra, s', e)
  {
    hide ConsumedItems, LevelsOf, TotalSlack, MarkCount, StackOk, Inv, Slack, Expects;
  }

  /** The event is (the start of) a node, and `cont` follows that node. */
  ghost predicate ContinuedWith(tokens: seq<Token>, s: Snapshot, cont: State, extra: nat, s': Snapshot, e: Event) {
    && Inv(tokens, s') && IsNode(e)
    && Open(s') == Opening(e, Expects(cont, LevelsOf(s.states)))
    && Consumed(tokens, s') == Consumed(tokens, s) + EventItems(e)
    && s'.head >= s.head
    && TotalSlack(s'.states) + Slack(s'.state) <= TotalSlack(s.states) + Slack(cont) + extra
  }

  /** `cont` is where a whole node read in state `s` leads. */
  predicate Leads(s: State, cont: State) {
    match cont
    case BlockSequenceEntryState => s.BlockSequenceFirstEntryState? || s.BlockSequenceEntryState?
    case IndentlessSequenceEntryState => s.IndentlessSequenceEntryState?
    case BlockMappingValueState => s.BlockMappingFirstKeyState? || s.BlockMappingKeyState?
    case BlockMappingKeyState => s.BlockMappingValueState?
    case FlowSequenceEntryState => s.FlowSequenceFirstEntryState? || s.FlowSequenceEntryState?
    case FlowSequenceEntryMappingValueState => s.FlowSequenceEntryMappingKeyState?
    case FlowSequenceEntryMappingEndState => s.FlowSequenceEntryMappingValueState?
    case FlowMappingValueState => s.FlowMappingFirstKeyState? || s.FlowMappingKeyState?
    case FlowMappingEmptyValueState => s.FlowMappingFirstKeyState? || s.FlowMappingKeyState?
    case FlowMappingKeyState => s.FlowMappingValueState? || s.FlowMappingEmptyValueState?
    case _ => false
  }

  lemma NodeProduced(tokens: seq<Token>, s: Snapshot, m: Snapshot, cont: State, extra: nat, s': Snapshot, e: Event)
    requires ContinuedWith(tokens, m, cont, extra, s', e)
    requires m.states == s.states && Leads(s.state, cont)
    requires Consumed(tokens, m) == Consumed(tokens, s)
    requires 5 * m.head + Slack(s.state) > 5 * s.head + Slack(cont) + extra
    ensures Produced(tokens, s, s', e)
  {
    hide ConsumedItems, LevelsOf, TotalSlack, MarkCount, StackOk, Inv;
  }

  lemma EmptyProduced(tokens: seq<Token>, s: Snapshot, s': Snapshot)
    requires Inv(tokens, s') && Leads(s.state, s'.state)
    requires s'.states == s.states && Consumed(tokens, s') == Consumed(tokens, s)
    requires 5 * s'.head + Slack(s.state) > 5 * s.head + Slack(s'.state)
    ensures Produced(tokens, s, s', EMPTY_SCALAR)
  {
    hide ConsumedItems, LevelsOf, TotalSlack, MarkCount, StackOk, Inv;
  }

  /** What holds before the root node of a document. */
  lemma RootStack(tokens: seq<Token>, s: Snapshot)
    requires Inv(tokens, s) && s.state.DocumentContentState?
    ensures s.head <= |tokens| && s.error.None? && !s.streamEndProduced
    ensures StackOk(s.states) && |s.marks| == MarkCount(s.states)
  {
    hide ConsumedItems, MarkCount, StackOk;
  }

  lemma RootRead(tokens: seq<Token>, s: Snapshot, s': Snapshot, e: Event)
    requires Inv(tokens, s) && s.state.DocumentContentState? && NodeRead(tokens, s, 0, s', e)
    ensures Produced(tokens, s, s', e)
  {
    hide ConsumedItems;
  }

  lemma RootEmpty(tokens: seq<Token>, s: Snapshot, s': Snapshot)
    requires Inv(tokens, s) && s.state.DocumentContentState?
    requires s'.head == s.head && s'.marks == s.marks && s'.error == s.error && s'.streamEndProduced == s.streamEndProduced
    requires Open(s') == LevelsOf(s.states)
    requires if InDocument(s'.state) then StackOk(s'.states) else s'.states == []
    requires TotalSlack(s'.states) + Slack(s'.state) == TotalSlack(s.states)
    requires MarkCount(s'.states) + MarksOf(s'.state) == MarkCount(s.states)
    requires FirstToken(s'.state).None? && !s'.state.EndState?
    ensures Produced(tokens, s, s', EMPTY_SCALAR)
  {
    hide ConsumedItems;
  }

  /** A single pair inside a flow sequence opens a mapping without pushing a continuation. */
  lemma PairProduced(tokens: seq<Token>, s: Snapshot, s': Snapshot)
    requires Inv(tokens, s') && (s.state.FlowSequenceFirstEntryState? || s.state.FlowSequenceEntryState?)
    requires s'.state.FlowSequenceEntryMappingKeyState?
    requires s'.states == s.states && Consumed(tokens, s') == Consumed(tokens, s) && s'.head > s.head
    ensures Produced(tokens, s, s', MappingStart(None, [], true, Flow))
  {
    hide ConsumedItems, LevelsOf, TotalSlack, MarkCount, StackOk, Inv;
  }

  lemma DocumentProduced(tokens: seq<Token>, s: Snapshot, s': Snapshot, e: Event)
    requires s.state.ImplicitDocumentStartState? || s.state.DocumentStartState?
    requires s.states == [] && |s'.marks| == 0 && s'.error.None? && s.head <= s'.head <= |tokens|
    requires Consumed(tokens, s') == Consumed(tokens, s)
    requires s'.streamEndProduced == e.StreamEnd?
    requires e.DocumentStart? ==> s'.states == [DocumentEndState]
    requires e.DocumentStart? ==> s'.state.BlockNodeState? || s'.state.DocumentContentState?
    requires e.StreamEnd? ==> s'.states == [] && s'.state.EndState?
    requires e.DocumentStart? || e.StreamEnd?
    requires s'.head > s.head || (e.DocumentStart? && s.state.ImplicitDocumentStartState?)
    ensures Produced(tokens, s, s', e)
  {
    hide ConsumedItems;
    assert [DocumentEndState][..0] == [];
  }

  lemma CloseProduced(tokens: seq<Token>, s: Snapshot, s': Snapshot, e: Event)
    requires Inv(tokens, s') && Open(s') == LevelsOf(s.states) && Consumed(tokens, s') == Consumed(tokens, s)
    requires TotalSlack(s'.states) + Slack(s'.state) == TotalSlack(s.states) && s'.head >= s.head
    requires s'.head > s.head || Slack(s.state) > 0
    requires e.SequenceEnd? || e.MappingEnd?
    requires e.SequenceEnd? ==>
               s.state.BlockSequenceFirstEntryState? || s.state.BlockSequenceEntryState? || s.state.IndentlessSequenceEntryState?
               || s.state.FlowSequenceFirstEntryState? || s.state.FlowSequenceEntryState?
    requires e.MappingEnd? ==>
               s.state.BlockMappingFirstKeyState? || s.state.BlockMappingKeyState?
               || s.state.FlowMappingFirstKeyState? || s.state.FlowMappingKeyState?
    ensures Produced(tokens, s, s', e)
  {
    hide ConsumedItems, LevelsOf, TotalSlack, MarkCount, StackOk, Inv;
  }

  class Parser {
    const tokens: seq<Token>
    var head: nat
    var state: State
    var states: seq<State>
    var marks: seq<Mark>
    var tagDirectives: seq<TagDirective>
    var streamEndProduced: bool
    var error: Option<Problem>
    ghost var emitted: seq<Event>

    ghost function View(): Snapshot
      reads this
    {
      Snapshot(head, state, states, marks, streamEndProduced, error)
    }

    ghost function Here(): Config
      reads this
    {
      Config(head, state, states, tagDirectives)
    }

    /** What holds between calls of `Parse`, on every run. */
    ghost predicate Valid()
      reads this
    {
      && Run(START, emitted).Some?
      && head <= |tokens|
      && |emitted| <= 5 * |tokens|
      && (error.None? ==>
            && Inv(tokens, View())
            && Run(START, emitted) == Some(Open(View()))
            && |emitted| + Measure(tokens, View()) <= 5 * |tokens|
            && EmittedItems(emitted) == Consumed(tokens, View()))
    }

    constructor (tokens: seq<Token>)
      ensures Valid() && error.None? && emitted == [] && this.tokens == tokens
      ensures state == StreamStartState && Here() == Config(0, StreamStartState, [], [])
    {
      this.tokens := tokens;
      head, state, states, marks := 0, StreamStartState, [], [];
      tagDirectives, streamEndProduced, error, emitted := [], false, None, [];
    }

    method Peek() returns (t: Option<Token>)
      requires head <= |tokens| && error.None?
      modifies this`error
      ensures t.Some? ==> error.None? && head < |tokens| && t.value == tokens[head]
      ensures t.None? ==> error.Some?
      ensures t.None? <==> head == |tokens|
    {
      if head == |tokens| {
        error := Some(ScannerFailed);
        return None;
      }
      return Some(tokens[head]);
    }

    method Skip()
      requires head < |tokens|
      modifies this`head, this`streamEndProduced
      ensures head == old(head) + 1
      ensures streamEndProduced == tokens[old(head)].kind.StreamEndToken?
      ensures Consumed(tokens, View()) == old(Consumed(tokens, View())) + TokenItems(tokens[old(head)])
    {
      streamEndProduced := tokens[head].kind.StreamEndToken?;
      head := head + 1;
    }

    /** Skip a token that carries no text. */
    method SkipPlain()
      requires head < |tokens| && TokenItems(tokens[head]) == [] && !tokens[head].kind.StreamEndToken?
      modifies this`head, this`streamEndProduced
      ensures head == old(head) + 1 && !streamEndProduced
      ensures Consumed(tokens, View()) == old(Consumed(tokens, View()))
    {
      Skip();
      assert Consumed(tokens, View()) == old(Consumed(tokens, View()));
    }

    method Fail(p: Problem) returns (r: Outcome)
      modifies this`error
      ensures r == Failed && error == Some(p)
    {
      error := Some(p);
      r := Failed;
    }

    /** Pop the continuation. */
    method Pop()
      requires StackOk(states)
      modifies this`state, this`states
      ensures old(states) != []
      ensures states == old(states)[..|old(states)| - 1] && state == old(states)[|old(states)| - 1]
      ensures Open(View()) == LevelsOf(old(states))
      ensures if InDocument(state) then StackOk(states) else states == [] && state == DocumentEndState
      ensures TotalSlack(states) + Slack(state) == TotalSlack(old(states))
      ensures MarkCount(states) + MarksOf(state) == MarkCount(old(states))
      ensures FirstToken(state).None? && !state.EndState?
    {
      state := states[|states| - 1];
      states := states[..|states| - 1];
    }

    method Push(s: State)
      requires IsContinuation(s)
      requires StackOk(states)
      modifies this`states
      ensures StackOk(states) && states == old(states) + [s]
      ensures LevelsOf(states) == Expects(s, LevelsOf(old(states)))
      ensures TotalSlack(states) == TotalSlack(old(states)) + Slack(s)
      ensures MarkCount(states) == MarkCount(old(states)) + MarksOf(s)
    {
      states := states + [s];
      assert states[..|states| - 1] == old(states);
    }

    /** Get the next event. */
    method Parse() returns (r: Outcome)
      requires Valid()
      modifies this
      ensures Valid()
      ensures Run(START, emitted).Some?
      ensures r.Got? ==> error.None? && emitted == old(emitted) + [r.event] && 0 <= Measure(tokens, View()) < old(Measure(tokens, View()))
      ensures !r.Got? ==> emitted == old(emitted)
      ensures r.NoEvent? <==> (old(error).Some? || old(state).EndState?)
      ensures r.Failed? ==> error.Some?
      ensures r.NoEvent? ==> unchanged(this)
      ensures r.Got? || r.Failed? ==> Follows(Next(tokens, old(Here())), r, Here())
    {
      hide ConsumedItems, LevelsOf, TotalSlack, MarkCount, StackOk;
      if streamEndProduced || error.Some? || state.EndState? {
        return NoEvent;
      }
      r := StateMachine();
      if r.Got? {
        RunSnoc(START, emitted, r.event);
        emitted := emitted + [r.event];
        assert emitted[..|emitted| - 1] == old(emitted);
      }
    }

    /** Until STREAM-END has been produced there is more to parse. */
    lemma NotAtEnd()
      requires Valid() && error.None? && emitted != [] && !emitted[|emitted| - 1].StreamEnd?
      ensures !state.EndState?
    {
      var xs, e := emitted[..|emitted| - 1], emitted[|emitted| - 1];
      assert emitted == xs + [e];
      ClosedIffStreamEnd(xs, e);
    }

    /** On every run: a prefix of a well-formed stream, at most five events per token, and whole at the end. */
    lemma RunsAreStreams()
      requires Valid()
      ensures exists docs :: WellFormedDocs(docs) && emitted <= StreamEvents(docs)
      ensures |emitted| <= 5 * |tokens|
      ensures error.None? && state.EndState? ==> exists docs :: WellFormedDocs(docs) && emitted == StreamEvents(docs)
    {
      AcceptedIffPrefix(emitted);
      AcceptedIffStream(emitted);
    }

    /** Parse to the end of the stream or to the first failure. */
    method ParseAll() returns (ok: bool)
      requires Valid() && error.None?
      modifies this
      ensures Valid()
      ensures ok <==> error.None?
      ensures ok ==> exists docs :: WellFormedDocs(docs) && emitted == StreamEvents(docs)
    {
      while true
        invariant Valid() && error.None?
        decreases Measure(tokens, View())
      {
        var r := Parse();
        match r {
          case Got(_) =>
          case NoEvent => RunsAreStreams(); return true;
          case Failed => return false;
        }
      }
    }

    method StateMachine() returns (r: Outcome)
      requires Inv(tokens, View()) && !state.EndState?
      modifies this`head, this`state, this`states, this`marks, this`tagDirectives, this`streamEndProduced, this`error
      ensures head <= |tokens| && !r.NoEvent? && (r.Failed? ==> error.Some?)
      ensures r.Got? ==> Produced(tokens, old(View()), View(), r.event)
      ensures Follows(Next(tokens, old(Here())), r, Here())
    {
      hide ConsumedItems;
      match state {
        case StreamStartState => r := ParseStreamStart();
        case ImplicitDocumentStartState => r := ParseDocumentStart(true);
        case DocumentStartState => r := ParseDocumentStart(false);
        case DocumentContentState => r := ParseDocumentContent();
        case DocumentEndState => r := ParseDocumentEnd();
        case BlockNodeState => r := ParseNode(true, false);
        case BlockSequenceFirstEntryState => r := ParseBlockSequenceEntry(true);
        case BlockSequenceEntryState => r := ParseBlockSequenceEntry(false);
        case IndentlessSequenceEntryState => r := ParseIndentlessSequenceEntry();
        case BlockMappingFirstKeyState => r := ParseBlockMappingKey(true);
        case BlockMappingKeyState => r := ParseBlockMappingKey(false);
        case BlockMappingValueState => r := ParseBlockMappingValue();
        case FlowSequenceFirstEntryState => r := ParseFlowSequenceEntry(true);
        case FlowSequenceEntryState => r := ParseFlowSequenceEntry(false);
        case FlowSequenceEntryMappingKeyState => r := ParseFlowSequenceEntryMappingKey();
        case FlowSequenceEntryMappingValueState => r := ParseFlowSequenceEntryMappingValue();
        case FlowSequenceEntryMappingEndState => r := ParseFlowSequenceEntryMappingEnd();
        case FlowMappingFirstKeyState => r := ParseFlowMappingKey(true);
        case FlowMappingKeyState => r := ParseFlowMappingKey(false);
        case FlowMappingValueState => r := ParseFlowMappingValue(false);
        case FlowMappingEmptyValueState => r := ParseFlowMappingValue(true);
      }
    }

    method ParseStreamStart() returns (r: Outcome)
      requires Inv(tokens, View()) && state.StreamStartState?
      modifies this`head, this`state, this`states, this`marks, this`tagDirectives, this`streamEndProduced, this`error
      ensures head <= |tokens| && !r.NoEvent? && (r.Failed? ==> error.Some?)
      ensures r.Got? ==> Produced(tokens, old(View()), View(), r.event)
      ensures Follows(Next(tokens, old(Here())), r, Here())
    {
      hide ConsumedItems;
      var token := Peek();
      if token.None? { return Failed; }
      if !token.value.kind.StreamStartToken? { r := Fail(NoStreamStart); return; }
      state := ImplicitDocumentStartState;
      Skip();
      return Got(StreamStart);
    }

    method SkipDocumentEnds() returns (ok: bool)
      requires head < |tokens| && error.None? && !streamEndProduced
      modifies this`head, this`streamEndProduced, this`error
      ensures old(head) <= head <= |tokens|
      ensures ok <==> error.None?
      ensures ok ==> !streamEndProduced && head < |tokens| && !tokens[head].kind.DocumentEndToken?
      ensures ok ==> Consumed(tokens, View()) == old(Consumed(tokens, View()))
      ensures ok ==> head == PastDocumentEnds(tokens, old(head))
      ensures !ok ==> PastDocumentEnds(tokens, old(head)) == |tokens|
    {
      hide ConsumedItems;
      var token := Peek();
      while token.value.kind.DocumentEndToken?
        invariant old(head) <= head < |tokens| && token == Some(tokens[head]) && error.None?
        invariant Consumed(tokens, View()) == old(Consumed(tokens, View())) && !streamEndProduced
        invariant PastDocumentEnds(tokens, head) == PastDocumentEnds(tokens, old(head))
        decreases |tokens| - head
      {
        SkipPlain();
        token := Peek();
        if token.None? { return false; }
      }
      ok := true;
    }

    method ParseDocumentStart(implicit: bool) returns (r: Outcome)
      requires Inv(tokens, View()) && state == if implicit then ImplicitDocumentStartState else DocumentStartState
      modifies this`head, this`state, this`states, this`tagDirectives, this`streamEndProduced, this`error
      ensures head <= |tokens| && !r.NoEvent? && (r.Failed? ==> error.Some?)
      ensures r.Got? ==> Produced(tokens, old(View()), View(), r.event)
      ensures Follows(DocumentStartMove(tokens, old(Here()), implicit), r, Here())
    {
      hide ConsumedItems, Produced, ExplicitStartMove, WithDefaults, DocumentStartMove, Follows, PastDocumentEnds;
      ghost var s := View();
      var token := Peek();
      if token.None? {
        NoStartFollows(tokens, old(Here()), Here());
        return Failed;
      }
      if !implicit {
        var ok := SkipDocumentEnds();
        if !ok {
          NoStartFollows(tokens, old(Here()), Here());
          return Failed;
        }
      }
      ghost var at := head;
      var kind := tokens[head].kind;
      if implicit && !kind.VersionDirectiveToken? && !kind.TagDirectiveToken?
         && !kind.DocumentStartToken? && !kind.StreamEndToken?
      {
        r := StartImplicitDocument();
      } else if !kind.StreamEndToken? {
        r := StartExplicitDocument();
      } else {
        state := EndState;
        Skip();
        r := Got(StreamEnd);
      }
      if r.Got? { DocumentProduced(tokens, s, View(), r.event); }
      StartFollows(tokens, old(Here()), implicit, at, r, Here());
    }

    /** A document without a DOCUMENT-START token. */
    method StartImplicitDocument() returns (r: Outcome)
      requires head < |tokens| && error.None? && !streamEndProduced
      requires !tokens[head].kind.VersionDirectiveToken? && !tokens[head].kind.TagDirectiveToken?
      modifies this`head, this`state, this`states, this`tagDirectives, this`streamEndProduced, this`error
      ensures r == Got(DocumentStart(None, [], false)) && error.None? && !streamEndProduced
      ensures Here() == Config(old(head), BlockNodeState, old(states) + [DocumentEndState], WithDefaults(old(tagDirectives)))
    {
      hide ConsumedItems;
      var ok, _, _ := ProcessDirectives();
      states := states + [DocumentEndState];
      state := BlockNodeState;
      return Got(DocumentStart(None, [], false));
    }

    /** Directives, then a DOCUMENT-START token. */
    method StartExplicitDocument() returns (r: Outcome)
      requires head < |tokens| && error.None? && !streamEndProduced
      modifies this`head, this`state, this`states, this`tagDirectives, this`streamEndProduced, this`error
      ensures old(head) <= head <= |tokens| && !r.NoEvent? && (r.Failed? ==> error.Some?)
      ensures r.Got? ==> error.None? && !streamEndProduced && head > old(head) && r.event.DocumentStart?
      ensures r.Got? ==> state == DocumentContentState && states == old(states) + [DocumentEndState]
      ensures r.Got? ==> Consumed(tokens, View()) == old(Consumed(tokens, View()))
      ensures Follows(ExplicitStartMove(tokens, old(head), old(states), old(tagDirectives)), r, Here())
    {
      hide ConsumedItems;
      var ok, version, directives := ProcessDirectives();
      if !ok { return Failed; }
      var token := Peek();
      if token.None? { return Failed; }
      if !token.value.kind.DocumentStartToken? { r := Fail(NoDocumentStart); return; }
      states := states + [DocumentEndState];
      state := DocumentContentState;
      SkipPlain();
      return Got(DocumentStart(version, directives, false));
    }

    method ParseDocumentContent() returns (r: Outcome)
      requires Inv(tokens, View()) && state.DocumentContentState?
      modifies this`head, this`state, this`states, this`marks, this`tagDirectives, this`streamEndProduced, this`error
      ensures head <= |tokens| && !r.NoEvent? && (r.Failed? ==> error.Some?)
      ensures r.Got? ==> Produced(tokens, old(View()), View(), r.event)
      ensures Follows(DocumentContentMove(tokens, old(Here())), r, Here())
    {
      hide ConsumedItems, LevelsOf, TotalSlack, MarkCount, StackOk, Expects, Slack, Inv, Produced, NodeRead;
      RootStack(tokens, View());
      var token := Peek();
      if token.None? { return Failed; }
      var kind := token.value.kind;
      if kind.VersionDirectiveToken? || kind.TagDirectiveToken? || kind.DocumentStartToken?
         || kind.DocumentEndToken? || kind.StreamEndToken?
      {
        Pop();
        RootEmpty(tokens, old(View()), View());
        return Got(EMPTY_SCALAR);
      }
      r := ParseNode(true, false);
      if r.Got? { RootRead(tokens, old(View()), View(), r.event); }
    }

    method ParseDocumentEnd() returns (r: Outcome)
      requires Inv(tokens, View()) && state.DocumentEndState?
      modifies this`head, this`state, this`states, this`marks, this`tagDirectives, this`streamEndProduced, this`error
      ensures head <= |tokens| && !r.NoEvent? && (r.Failed? ==> error.Some?)
      ensures r.Got? ==> Produced(tokens, old(View()), View(), r.event)
      ensures Follows(DocumentEndMove(tokens, old(Here())), r, Here())
    {
      hide ConsumedItems;
      var token := Peek();
      if token.None? { return Failed; }
      var implicit := true;
      if token.value.kind.DocumentEndToken? {
        Skip();
        implicit := false;
      }
      tagDirectives := [];
      state := DocumentStartState;
      return Got(DocumentEnd(implicit));
    }

    /** Parse a node whose continuation has been pushed. */
    method ParseNode(block: bool, indentlessSequence: bool) returns (r: Outcome)
      requires head <= |tokens| && error.None? && !streamEndProduced
      requires StackOk(states) && |marks| == MarkCount(states)
      modifies this`head, this`state, this`states, this`streamEndProduced, this`error
      ensures head <= |tokens| && !r.NoEvent? && (r.Failed? ==> error.Some?)
      ensures r.Got? ==> NodeRead(tokens, old(View()), if indentlessSequence then 1 else 0, View(), r.event)
      ensures r.Got? && !r.event.Alias? ==> ResolveTag(tagDirectives, PropertiesAt(tokens, old(head)).2) == Some(r.event.tag)
      ensures Follows(NodeMove(tokens, old(head), old(states), tagDirectives, block, indentlessSequence), r, Here())
    {
      hide ConsumedItems, LevelsOf, TotalSlack, MarkCount, StackOk, Expects, ResolveTag, Slack, NodeRead, ContentRead, Inv, NodeMove, ContentMove, PropertiesAt;
      ghost var s := View();
      var token := Peek();
      if token.None? {
        NothingMove(tokens, head, states, tagDirectives, block, indentlessSequence);
        return Failed;
      }
      if token.value.kind.AliasToken? {
        AliasMove(tokens, head, states, tagDirectives, block, indentlessSequence);
        r := ParseAlias(if indentlessSequence then 1 else 0);
        return;
      }
      var ok, anchor, tagToken := ParseProperties();
      if !ok {
        CutOffMove(tokens, s.head, states, tagDirectives, block, indentlessSequence);
        return Failed;
      }
      LocatedMove(tokens, s.head, states, tagDirectives, block, indentlessSequence);
      var tag;
      ok, tag := NodeTag(tagToken);
      if !ok { return Failed; }
      ghost var m := View();
      r := ParseContent(anchor, tag, block, indentlessSequence);
      if r.Got? { PropertiesRead(tokens, s, m, anchor, if indentlessSequence then 1 else 0, View(), r.event); }
    }

    method ParseAlias(ghost extra: nat) returns (r: Outcome)
      requires head < |tokens| && tokens[head].kind.AliasToken? && error.None? && !streamEndProduced
      requires StackOk(states) && |marks| == MarkCount(states)
      modifies this`head, this`state, this`states, this`streamEndProduced
      ensures head <= |tokens| && r == Got(Alias(tokens[old(head)].value))
      ensures NodeRead(tokens, old(View()), extra, View(), r.event)
      ensures head == old(head) + 1 && states == old(states)[..|old(states)| - 1] && state == old(states)[|old(states)| - 1]
    {
      hide ConsumedItems, LevelsOf, TotalSlack, MarkCount, StackOk, Expects, Slack;
      var name := tokens[head].value;
      Pop();
      Skip();
      return Got(Alias(name));
    }

    method NodeTag(tagToken: Option<Token>) returns (ok: bool, tag: Bytes)
      requires error.None?
      modifies this`error
      ensures ok <==> error.None?
      ensures ResolveTag(tagDirectives, tagToken) == if ok then Some(tag) else None
      ensures tagToken.None? ==> tag == []
      ensures !ok ==> tagToken.Some? && tagToken.value.value != []
      ensures tagToken.Some? && tagToken.value.value == [] ==> tag == tagToken.value.suffix
      ensures tagToken.Some? && tagToken.value.value != [] ==>
                && (!Declared(tagDirectives, tagToken.value.value) ==> !ok)
                && forall i: nat | FirstWith(tagDirectives, tagToken.value.value, i) ::
                     var full := tagDirectives[i].prefix + tagToken.value.suffix;
                     (ok <==> full != []) && (ok ==> tag == full)
    {
      ok, tag := true, [];
      if tagToken.Some? {
        if tagToken.value.value == [] {
          tag := tagToken.value.suffix;
        } else {
          tag := FindTag(tagToken.value.value, tagToken.value.suffix);
          if tag == [] {
            error := Some(UndefinedTagHandle);
            ok := false;
          }
        }
      }
    }

    /** The content of a node whose properties have been read. */
    method ParseContent(anchor: Option<Bytes>, tag: Bytes, block: bool, indentlessSequence: bool) returns (r: Outcome)
      requires head < |tokens| && error.None? && !streamEndProduced
      requires StackOk(states) && |marks| == MarkCount(states)
      modifies this`head, this`state, this`states, this`streamEndProduced, this`error
      ensures head <= |tokens| && !r.NoEvent? && (r.Failed? ==> error.Some?)
      ensures r.Got? ==> ContentRead(tokens, old(View()), if indentlessSequence then 1 else 0, View(), r.event)
      ensures r.Got? ==> !r.event.Alias? && r.event.tag == tag && r.event.anchorOpt == anchor
      ensures head >= old(head)
      ensures r.Got? && IsLeaf(r.event) ==> head > old(head) || anchor.Some? || tag != []
      ensures Follows(ContentMove(tokens, old(head), old(states), tagDirectives, anchor, tag, block, indentlessSequence), r, Here())
    {
      hide ConsumedItems, LevelsOf, TotalSlack, MarkCount, StackOk, Expects, ContentRead, Slack;
      ghost var s := View();
      StackSome(states);
      var kind := tokens[head].kind;
      if kind.ScalarToken? {
        r := ParseScalar(anchor, tag);
        MoreSlack(tokens, s, View(), r.event);
        return;
      }
      var start := Started(kind, anchor, tag, block, indentlessSequence);
      if start.Some? {
        state := start.value.1;
        r := Got(start.value.0);
        StartRead(tokens, s, if indentlessSequence then 1 else 0, View(), r.event);
      } else if (anchor.Some? && anchor.value != []) || tag != [] {
        r := Bare(anchor, tag);
        MoreSlack(tokens, s, View(), r.event);
      } else {
        r := Fail(NoNodeContent);
      }
    }

    /** Properties with nothing after them: an empty plain scalar. */
    method Bare(anchor: Option<Bytes>, tag: Bytes) returns (r: Outcome)
      requires head < |tokens| && error.None? && !streamEndProduced
      requires StackOk(states) && |marks| == MarkCount(states)
      modifies this`state, this`states
      ensures r == Got(Scalar(anchor, tag, [], tag == [], false, Plain))
      ensures ContentRead(tokens, old(View()), 0, View(), r.event)
      ensures states == old(states)[..|old(states)| - 1] && state == old(states)[|old(states)| - 1]
    {
      hide ConsumedItems, LevelsOf, TotalSlack, MarkCount, StackOk, Expects, Slack;
      Pop();
      return Got(Scalar(anchor, tag, [], tag == [], false, Plain));
    }

    method ParseScalar(anchor: Option<Bytes>, tag: Bytes) returns (r: Outcome)
      requires head < |tokens| && error.None? && !streamEndProduced && tokens[head].kind.ScalarToken?
      requires StackOk(states) && |marks| == MarkCount(states)
      modifies this`head, this`state, this`states, this`streamEndProduced
      ensures head == old(head) + 1
      ensures r == Got(Scalar(anchor, tag, tokens[old(head)].value,
                              (tag == [] && tokens[old(head)].style.Plain?) || tag == [33],
                              tag == [] && !tokens[old(head)].style.Plain?, tokens[old(head)].style))
      ensures ContentRead(tokens, old(View()), 0, View(), r.event)
      ensures states == old(states)[..|old(states)| - 1] && state == old(states)[|old(states)| - 1]
    {
      hide ConsumedItems, LevelsOf, TotalSlack, MarkCount, StackOk, Expects;
      var token := tokens[head];
      var plainImplicit, quotedImplicit := false, false;
      if (tag == [] && token.style.Plain?) || tag == [33] {
        plainImplicit := true;
      } else if tag == [] {
        quotedImplicit := true;
      }
      Pop();
      Skip();
      return Got(Scalar(anchor, tag, token.value, plainImplicit, quotedImplicit, token.style));
    }

    /** Take the token at the head if it has this kind. */
    method TakeIf(kind: TokenKind) returns (ok: bool, taken: Option<Token>)
      requires head < |tokens| && error.None? && !streamEndProduced && !kind.StreamEndToken?
      modifies this`head, this`streamEndProduced, this`error
      ensures ok <==> error.None?
      ensures ok ==> head < |tokens| && !streamEndProduced
      ensures head <= |tokens|
      ensures taken == if tokens[old(head)].kind == kind then Some(tokens[old(head)]) else None
      ensures head == old(head) + if taken.Some? then 1 else 0
      ensures !ok ==> head == |tokens| && taken.Some?
      ensures Consumed(tokens, View()) == old(Consumed(tokens, View())) + if taken.Some? then TokenItems(taken.value) else []
    {
      hide ConsumedItems;
      ok, taken := true, None;
      if tokens[head].kind == kind {
        taken := Some(tokens[head]);
        Skip();
        var token := Peek();
        ok := token.Some?;
      }
    }

    /** ANCHOR TAG? or TAG ANCHOR?, both optional. */
    method ParseProperties() returns (ok: bool, anchor: Option<Bytes>, tagToken: Option<Token>)
      requires head < |tokens| && error.None? && !streamEndProduced
      modifies this`head, this`streamEndProduced, this`error
      ensures old(head) <= head <= |tokens|
      ensures ok <==> error.None?
      ensures ok ==> head < |tokens| && !streamEndProduced
      ensures ok ==> Consumed(tokens, View()) == old(Consumed(tokens, View())) + AnchorItems(anchor)
      ensures ok && (anchor.Some? || tagToken.Some?) ==> head > old(head)
      ensures ok ==> PropertiesAt(tokens, old(head)) == (head, anchor, tagToken)
      ensures !ok ==> PropertiesAt(tokens, old(head)).0 == |tokens|
    {
      hide ConsumedItems;
      var anchorToken;
      ok, anchorToken := TakeIf(AnchorToken);
      tagToken, anchor := None, None;
      if ok {
        ok, tagToken := TakeIf(TagToken);
        if ok && anchorToken.None? && tagToken.Some? {
          ok, anchorToken := TakeIf(AnchorToken);
        }
      }
      if anchorToken.Some? { anchor := Some(anchorToken.value.value); }
    }

    method FindTag(handle: Bytes, suffix: Bytes) returns (tag: Bytes)
      ensures tag == Lookup(tagDirectives, handle, suffix)
      ensures forall i: nat | FirstWith(tagDirectives, handle, i) :: tag == tagDirectives[i].prefix + suffix
      ensures !Declared(tagDirectives, handle) ==> tag == []
    {
      var i := 0;
      while i < |tagDirectives|
        invariant 0 <= i <= |tagDirectives|
        invariant forall j | 0 <= j < i :: tagDirectives[j].handle != handle
        invariant Lookup(tagDirectives, handle, suffix) == Lookup(tagDirectives[i..], handle, suffix)
      {
        if tagDirectives[i].handle == handle {
          forall k: nat | FirstWith(tagDirectives, handle, k) ensures k == i { }
          return tagDirectives[i].prefix + suffix;
        }
        assert tagDirectives[i..][1..] == tagDirectives[i + 1..];
        i := i + 1;
      }
      return [];
    }

    /** Consume the token that starts a collection and remember where it was. */
    method SaveMark()
      requires head < |tokens|
      requires TokenItems(tokens[head]) == [] && !tokens[head].kind.StreamEndToken?
      modifies this`head, this`streamEndProduced, this`marks
      ensures head == old(head) + 1 && !streamEndProduced
      ensures marks == old(marks) + [tokens[old(head)].start]
      ensures Consumed(tokens, View()) == old(Consumed(tokens, View()))
    {
      marks := marks + [tokens[head].start];
      Skip();
      assert Consumed(tokens, View()) == old(Consumed(tokens, View()));
    }

    /** Either a node with continuation `cont`, or an empty scalar after which `cont` is current. */
    method NodeOrEmpty(empty: bool, cont: State, block: bool, indentlessSequence: bool) returns (r: Outcome)
      requires head <= |tokens| && error.None? && !streamEndProduced
      requires StackOk(states) && IsContinuation(cont) && |marks| == MarkCount(states) + MarksOf(cont)
      modifies this`head, this`state, this`states, this`streamEndProduced, this`error
      ensures head <= |tokens| && !r.NoEvent? && (r.Failed? ==> error.Some?)
      ensures r.Got? ==> ContinuedWith(tokens, old(View()), cont, if indentlessSequence then 1 else 0, View(), r.event)
      ensures Follows(NodeOrEmptyMove(tokens, old(head), old(states), tagDirectives, empty, cont, block, indentlessSequence), r, Here())
    {
      hide ConsumedItems, LevelsOf, TotalSlack, MarkCount, StackOk;
      if empty {
        state := cont;
        r := Got(EMPTY_SCALAR);
        assert Consumed(tokens, View()) == old(Consumed(tokens, View())) + EventItems(EMPTY_SCALAR);
      } else {
        Push(cont);
        r := ParseNode(block, indentlessSequence);
      }
    }

    /** A node or an empty scalar, as the step of the production that started at `s`. */
    method NodeAfter(ghost s: Snapshot, empty: bool, cont: State, block: bool, indentlessSequence: bool) returns (r: Outcome)
      requires head <= |tokens| && error.None? && !streamEndProduced
      requires StackOk(states) && IsContinuation(cont) && |marks| == MarkCount(states) + MarksOf(cont)
      requires states == s.states && Leads(s.state, cont) && Consumed(tokens, View()) == Consumed(tokens, s)
      requires 5 * head + Slack(s.state) > 5 * s.head + Slack(cont) + if indentlessSequence then 1 else 0
      modifies this`head, this`state, this`states, this`streamEndProduced, this`error
      ensures head <= |tokens| && !r.NoEvent? && (r.Failed? ==> error.Some?)
      ensures r.Got? ==> Produced(tokens, s, View(), r.event)
      ensures Follows(NodeOrEmptyMove(tokens, old(head), s.states, tagDirectives, empty, cont, block, indentlessSequence), r, Here())
    {
      hide ConsumedItems, LevelsOf, TotalSlack, MarkCount, StackOk, ContinuedWith, Produced, NodeOrEmptyMove, Follows, Inv, Slack, Leads;
      ghost var m := View();
      r := NodeOrEmpty(empty, cont, block, indentlessSequence);
      if r.Got? {
        NodeProduced(tokens, s, m, cont, if indentlessSequence then 1 else 0, View(), r.event);
      }
    }

    /** The end of the collection being read, as the step of the production that started at `s`. */
    method CloseAfter(ghost s: Snapshot, e: Event) returns (r: Outcome)
      requires head < |tokens| && error.None? && StackOk(states) && |marks| == MarkCount(states) + 1
      requires TokenItems(tokens[head]) == [] && !tokens[head].kind.StreamEndToken?
      requires states == s.states && Consumed(tokens, View()) == Consumed(tokens, s) && s.head <= head
      requires e.SequenceEnd? || e.MappingEnd?
      requires e.SequenceEnd? ==>
                 s.state.BlockSequenceFirstEntryState? || s.state.BlockSequenceEntryState?
                 || s.state.FlowSequenceFirstEntryState? || s.state.FlowSequenceEntryState?
      requires e.MappingEnd? ==>
                 s.state.BlockMappingFirstKeyState? || s.state.BlockMappingKeyState?
                 || s.state.FlowMappingFirstKeyState? || s.state.FlowMappingKeyState?
      modifies this`head, this`state, this`states, this`marks, this`streamEndProduced
      ensures r == Got(e) && head <= |tokens| && Produced(tokens, s, View(), e)
      ensures Follows(CloseMove(e, old(head), s.states, tagDirectives), r, Here())
    {
      hide ConsumedItems, LevelsOf, TotalSlack, MarkCount, StackOk, Produced, Follows, Inv, CloseMove;
      CloseCollection();
      CloseProduced(tokens, s, View(), e);
      CloseFollows(e, old(head), s.states, tagDirectives, Here());
      return Got(e);
    }

    /** Consume the token that ends a collection and return to the continuation. */
    method CloseCollection()
      requires head < |tokens| && error.None? && StackOk(states) && |marks| == MarkCount(states) + 1
      requires TokenItems(tokens[head]) == [] && !tokens[head].kind.StreamEndToken?
      modifies this`head, this`state, this`states, this`marks, this`streamEndProduced
      ensures Inv(tokens, View()) && head == old(head) + 1
      ensures Open(View()) == LevelsOf(old(states)) && Consumed(tokens, View()) == old(Consumed(tokens, View()))
      ensures TotalSlack(states) + Slack(state) == TotalSlack(old(states))
      ensures old(states) != []
      ensures states == old(states)[..|old(states)| - 1] && state == old(states)[|old(states)| - 1]
    {
      hide ConsumedItems, LevelsOf, TotalSlack, MarkCount, StackOk;
      Pop();
      marks := marks[..|marks| - 1];
      Skip();
      assert Consumed(tokens, View()) == old(Consumed(tokens, View()));
    }

    method ParseBlockSequenceEntry(first: bool) returns (r: Outcome)
      requires Inv(tokens, View()) && state == if first then BlockSequenceFirstEntryState else BlockSequenceEntryState
      modifies this`head, this`state, this`states, this`marks, this`tagDirectives, this`streamEndProduced, this`error
      ensures head <= |tokens| && !r.NoEvent? && (r.Failed? ==> error.Some?)
      ensures r.Got? ==> Produced(tokens, old(View()), View(), r.event)
      ensures Follows(BlockSequenceMove(tokens, old(Here()), first), r, Here())
    {
      hide Inv, ConsumedItems, LevelsOf, TotalSlack, MarkCount, StackOk, ContinuedWith, Produced, NodeOrEmptyMove, NodeMove, BlockSequenceMove, Follows, CloseMove;
      hide Expects, Step;
      ghost var s := View();
      InsideFacts(tokens, s);
      if first { SaveMark(); }
      var token := Peek();
      if token.None? {
        BlockItemFollows(tokens, old(Here()), first, Failed, Here());
        return Failed;
      }
      ghost var at := head;
      if token.value.kind.BlockEntryToken? {
        SkipPlain();
        token := Peek();
        if token.None? {
          BlockItemFollows(tokens, old(Here()), first, Failed, Here());
          return Failed;
        }
        var kind := token.value.kind;
        r := NodeAfter(s, kind.BlockEntryToken? || kind.BlockEndToken?, BlockSequenceEntryState, true, false);
        BlockItemFollows(tokens, old(Here()), first, r, Here());
        return;
      }
      if token.value.kind.BlockEndToken? {
        r := CloseAfter(s, SequenceEnd);
        BlockItemFollows(tokens, old(Here()), first, r, Here());
        return;
      }
      marks := marks[..|marks| - 1];
      r := Fail(NoBlockEntry);
      BlockItemFollows(tokens, old(Here()), first, r, Here());
    }

    method ParseIndentlessSequenceEntry() returns (r: Outcome)
      requires Inv(tokens, View()) && state.IndentlessSequenceEntryState?
      modifies this`head, this`state, this`states, this`marks, this`tagDirectives, this`streamEndProduced, this`error
      ensures head <= |tokens| && !r.NoEvent? && (r.Failed? ==> error.Some?)
      ensures r.Got? ==> Produced(tokens, old(View()), View(), r.event)
      ensures Follows(IndentlessSequenceMove(tokens, old(Here())), r, Here())
    {
      hide ConsumedItems, LevelsOf, TotalSlack, MarkCount, StackOk, ContinuedWith, Produced, NodeOrEmptyMove, NodeMove;
      hide Expects, Step;
      ghost var s := View();
      StackSome(states);
      var token := Peek();
      if token.None? { return Failed; }
      if token.value.kind.BlockEntryToken? {
        SkipPlain();
        token := Peek();
        if token.None? { return Failed; }
        var kind := token.value.kind;
        r := NodeAfter(s, kind.BlockEntryToken? || kind.KeyToken? || kind.ValueToken? || kind.BlockEndToken?, IndentlessSequenceEntryState, true, false);
        return;
      }
      Pop();
      CloseProduced(tokens, s, View(), SequenceEnd);
      return Got(SequenceEnd);
    }

    method ParseBlockMappingKey(first: bool) returns (r: Outcome)
      requires Inv(tokens, View()) && state == if first then BlockMappingFirstKeyState else BlockMappingKeyState
      modifies this`head, this`state, this`states, this`marks, this`tagDirectives, this`streamEndProduced, this`error
      ensures head <= |tokens| && !r.NoEvent? && (r.Failed? ==> error.Some?)
      ensures r.Got? ==> Produced(tokens, old(View()), View(), r.event)
      ensures Follows(BlockKeyMove(tokens, old(Here()), first), r, Here())
    {
      hide Inv, ConsumedItems, LevelsOf, TotalSlack, MarkCount, StackOk, ContinuedWith, Produced, NodeOrEmptyMove, NodeMove;
      hide Expects, Step;
      ghost var s := View();
      InsideFacts(tokens, s);
      if first { SaveMark(); }
      var token := Peek();
      if token.None? { return Failed; }
      if token.value.kind.KeyToken? {
        SkipPlain();
        token := Peek();
        if token.None? { return Failed; }
        var kind := token.value.kind;
        r := NodeAfter(s, kind.KeyToken? || kind.ValueToken? || kind.BlockEndToken?, BlockMappingValueState, true, true);
        return;
      } else if token.value.kind.BlockEndToken? {
        r := CloseAfter(s, MappingEnd);
        return;
      }
      marks := marks[..|marks| - 1];
      r := Fail(NoBlockKey);
    }

    method ParseBlockMappingValue() returns (r: Outcome)
      requires Inv(tokens, View()) && state.BlockMappingValueState?
      modifies this`head, this`state, this`states, this`marks, this`tagDirectives, this`streamEndProduced, this`error
      ensures head <= |tokens| && !r.NoEvent? && (r.Failed? ==> error.Some?)
      ensures r.Got? ==> Produced(tokens, old(View()), View(), r.event)
      ensures Follows(BlockValueMove(tokens, old(Here())), r, Here())
    {
      hide ConsumedItems, LevelsOf, TotalSlack, MarkCount, StackOk, ContinuedWith, Produced, NodeOrEmptyMove, NodeMove;
      hide Expects, Step;
      ghost var s := View();
      var token := Peek();
      if token.None? { return Failed; }
      if token.value.kind.ValueToken? {
        SkipPlain();
        token := Peek();
        if token.None? { return Failed; }
        var kind := token.value.kind;
        r := NodeAfter(s, kind.KeyToken? || kind.ValueToken? || kind.BlockEndToken?, BlockMappingKeyState, true, true);
        return;
      }
      state := BlockMappingKeyState;
      EmptyProduced(tokens, s, View());
      return Got(EMPTY_SCALAR);
    }

    /**
     The start token of a flow collection, or the separator before a further entry; `end` closes the
     collection.  On success the head is at the entry or at `end`.
     */
    method NextFlowEntry(first: bool, end: TokenKind, problem: Problem) returns (ok: bool)
      requires head < |tokens| || !first
      requires head <= |tokens| && error.None? && !streamEndProduced
      requires first ==> TokenItems(tokens[head]) == [] && !tokens[head].kind.StreamEndToken?
      requires !first ==> |marks| > 0
      modifies this`head, this`streamEndProduced, this`marks, this`error
      ensures old(head) <= head <= |tokens|
      ensures !ok ==> error.Some?
      ensures ok ==> error.None? && !streamEndProduced && head < |tokens| && Consumed(tokens, View()) == old(Consumed(tokens, View()))
      ensures ok ==> |marks| == |old(marks)| + if first then 1 else 0
      ensures ok && (first || tokens[head].kind != end) ==> head > old(head)
      ensures match FlowEntryAt(tokens, old(Here()), first, end)
              case Some(h) => ok && head == h
              case None => !ok
    {
      hide ConsumedItems;
      ok := false;
      if first { SaveMark(); }
      var token := Peek();
      if token.None? { return; }
      if token.value.kind != end && !first {
        if !token.value.kind.FlowEntryToken? {
          marks := marks[..|marks| - 1];
          error := Some(problem);
          return;
        }
        SkipPlain();
        token := Peek();
        if token.None? { return; }
      }
      ok := true;
    }

    method ParseFlowSequenceEntry(first: bool) returns (r: Outcome)
      requires Inv(tokens, View()) && state == if first then FlowSequenceFirstEntryState else FlowSequenceEntryState
      modifies this`head, this`state, this`states, this`marks, this`streamEndProduced, this`error
      ensures head <= |tokens| && !r.NoEvent? && (r.Failed? ==> error.Some?)
      ensures r.Got? ==> Produced(tokens, old(View()), View(), r.event)
      ensures Follows(FlowSequenceMove(tokens, old(Here()), first), r, Here())
    {
      hide Inv, ConsumedItems, LevelsOf, TotalSlack, MarkCount, StackOk, ContinuedWith, Produced, NodeOrEmptyMove, NodeMove, Expects, Step, FlowSequenceMove, Follows, CloseMove, FlowEntryAt;
      ghost var s := View();
      InsideFacts(tokens, s);
      var ok := NextFlowEntry(first, FlowSequenceEndToken, NoFlowSequenceSeparator);
      NoEntryFollows(tokens, old(Here()), first, Here());
      if !ok { return Failed; }
      ghost var at := head;
      var kind := tokens[head].kind;
      if kind.KeyToken? {
        state := FlowSequenceEntryMappingKeyState;
        SkipPlain();
        InsideInv(tokens, View());
        PairProduced(tokens, s, View());
        r := Got(MappingStart(None, [], true, Flow));
        FlowItemFollows(tokens, old(Here()), first, at, r, Here());
        return;
      } else if !kind.FlowSequenceEndToken? {
        r := NodeAfter(s, false, FlowSequenceEntryState, false, false);
        FlowItemFollows(tokens, old(Here()), first, at, r, Here());
        return;
      }
      r := CloseAfter(s, SequenceEnd);
      FlowItemFollows(tokens, old(Here()), first, at, r, Here());
    }

    method ParseFlowSequenceEntryMappingKey() returns (r: Outcome)
      requires Inv(tokens, View()) && state.FlowSequenceEntryMappingKeyState?
      modifies this`head, this`state, this`states, this`marks, this`tagDirectives, this`streamEndProduced, this`error
      ensures head <= |tokens| && !r.NoEvent? && (r.Failed? ==> error.Some?)
      ensures r.Got? ==> Produced(tokens, old(View()), View(), r.event)
      ensures Follows(PairKeyMove(tokens, old(Here())), r, Here())
    {
      hide ConsumedItems, LevelsOf, TotalSlack, MarkCount, StackOk, ContinuedWith, Produced, NodeOrEmptyMove, NodeMove;
      hide Expects, Step;
      ghost var s := View();
      var token := Peek();
      if token.None? { return Failed; }
      var kind := token.value.kind;
      if !kind.ValueToken? && !kind.FlowEntryToken? && !kind.FlowSequenceEndToken? {
        r := NodeAfter(s, false, FlowSequenceEntryMappingValueState, false, false);
        return;
      }
      SkipPlain();
      state := FlowSequenceEntryMappingValueState;
      EmptyProduced(tokens, s, View());
      return Got(EMPTY_SCALAR);
    }

    method ParseFlowSequenceEntryMappingValue() returns (r: Outcome)
      requires Inv(tokens, View()) && state.FlowSequenceEntryMappingValueState?
      modifies this`head, this`state, this`states, this`marks, this`tagDirectives, this`streamEndProduced, this`error
      ensures head <= |tokens| && !r.NoEvent? && (r.Failed? ==> error.Some?)
      ensures r.Got? ==> Produced(tokens, old(View()), View(), r.event)
      ensures Follows(PairValueMove(tokens, old(Here())), r, Here())
    {
      hide ConsumedItems, LevelsOf, TotalSlack, MarkCount, StackOk, ContinuedWith, Produced, NodeOrEmptyMove, NodeMove;
      hide Expects, Step;
      ghost var s := View();
      var token := Peek();
      if token.None? { return Failed; }
      if token.value.kind.ValueToken? {
        SkipPlain();
        token := Peek();
        if token.None? { return Failed; }
        var kind := token.value.kind;
        r := NodeAfter(s, kind.FlowEntryToken? || kind.FlowSequenceEndToken?, FlowSequenceEntryMappingEndState, false, false);
        return;
      }
      state := FlowSequenceEntryMappingEndState;
      EmptyProduced(tokens, s, View());
      return Got(EMPTY_SCALAR);
    }

    method ParseFlowSequenceEntryMappingEnd() returns (r: Outcome)
      requires Inv(tokens, View()) && state.FlowSequenceEntryMappingEndState?
      modifies this`head, this`state, this`states, this`marks, this`tagDirectives, this`streamEndProduced, this`error
      ensures head <= |tokens| && !r.NoEvent? && (r.Failed? ==> error.Some?)
      ensures r.Got? ==> Produced(tokens, old(View()), View(), r.event)
      ensures Follows(PairEndMove(tokens, old(Here())), r, Here())
    {
      hide ConsumedItems, LevelsOf, TotalSlack, MarkCount, StackOk;
      var token := Peek();
      if token.None? { return Failed; }
      state := FlowSequenceEntryState;
      return Got(MappingEnd);
    }

    method ParseFlowMappingKey(first: bool) returns (r: Outcome)
      requires Inv(tokens, View()) && state == if first then FlowMappingFirstKeyState else FlowMappingKeyState
      modifies this`head, this`state, this`states, this`marks, this`streamEndProduced, this`error
      ensures head <= |tokens| && !r.NoEvent? && (r.Failed? ==> error.Some?)
      ensures r.Got? ==> Produced(tokens, old(View()), View(), r.event)
      ensures Follows(FlowKeyMove(tokens, old(Here()), first), r, Here())
    {
      hide Inv, ConsumedItems, LevelsOf, TotalSlack, MarkCount, StackOk, ContinuedWith, Produced, NodeOrEmptyMove, NodeMove, Expects, Step, FlowKeyMove, Follows, CloseMove, FlowEntryAt;
      ghost var s := View();
      InsideFacts(tokens, s);
      var ok := NextFlowEntry(first, FlowMappingEndToken, NoFlowMappingSeparator);
      NoEntryFollows(tokens, old(Here()), first, Here());
      if !ok { return Failed; }
      ghost var at := head;
      var kind := tokens[head].kind;
      if kind.KeyToken? {
        ghost var m := View();
        r := ParseFlowMappingExplicitKey();
        if r.Got? { NodeProduced(tokens, s, m, FlowMappingValueState, 0, View(), r.event); }
        FlowKeyFollows(tokens, old(Here()), first, at, r, Here());
        return;
      }
      if !kind.FlowMappingEndToken? {
        r := NodeAfter(s, false, FlowMappingEmptyValueState, false, false);
        FlowKeyFollows(tokens, old(Here()), first, at, r, Here());
        return;
      }
      r := CloseAfter(s, MappingEnd);
      FlowKeyFollows(tokens, old(Here()), first, at, r, Here());
    }

    /** The KEY token is at the head. */
    method ParseFlowMappingExplicitKey() returns (r: Outcome)
      requires head < |tokens| && tokens[head].kind.KeyToken? && error.None? && !streamEndProduced
      requires StackOk(states) && |marks| == MarkCount(states) + 1
      modifies this`head, this`state, this`states, this`streamEndProduced, this`error
      ensures head <= |tokens| && !r.NoEvent? && (r.Failed? ==> error.Some?)
      ensures r.Got? ==> ContinuedWith(tokens, old(View()), FlowMappingValueState, 0, View(), r.event)
      ensures old(head) + 1 >= |tokens| ==> r.Failed?
      ensures old(head) + 1 < |tokens| ==>
                Follows(NodeOrEmptyMove(tokens, old(head) + 1, old(states), tagDirectives,
                                        (Is(tokens, old(head) + 1, ValueToken) || Is(tokens, old(head) + 1, FlowEntryToken) || Is(tokens, old(head) + 1, FlowMappingEndToken)),
                                        FlowMappingValueState, false, false), r, Here())
    {
      hide ConsumedItems, LevelsOf, TotalSlack, MarkCount, StackOk, Expects, Slack, Inv;
      SkipPlain();
      var token := Peek();
      if token.None? { return Failed; }
      var kind := token.value.kind;
      r := NodeOrEmpty(kind.ValueToken? || kind.FlowEntryToken? || kind.FlowMappingEndToken?,
                       FlowMappingValueState, false, false);
    }

    method ParseFlowMappingValue(empty: bool) returns (r: Outcome)
      requires Inv(tokens, View()) && state == if empty then FlowMappingEmptyValueState else FlowMappingValueState
      modifies this`head, this`state, this`states, this`marks, this`tagDirectives, this`streamEndProduced, this`error
      ensures head <= |tokens| && !r.NoEvent? && (r.Failed? ==> error.Some?)
      ensures r.Got? ==> Produced(tokens, old(View()), View(), r.event)
      ensures Follows(FlowValueMove(tokens, old(Here()), empty), r, Here())
    {
      hide ConsumedItems, LevelsOf, TotalSlack, MarkCount, StackOk, ContinuedWith, Produced, NodeOrEmptyMove, NodeMove;
      hide Expects, Step;
      ghost var s := View();
      var token := Peek();
      if token.None? { return Failed; }
      if empty {
        state := FlowMappingKeyState;
        EmptyProduced(tokens, s, View());
        return Got(EMPTY_SCALAR);
      }
      if token.value.kind.ValueToken? {
        SkipPlain();
        token := Peek();
        if token.None? { return Failed; }
        var kind := token.value.kind;
        r := NodeAfter(s, kind.FlowEntryToken? || kind.FlowMappingEndToken?, FlowMappingKeyState, false, false);
        return;
      }
      state := FlowMappingKeyState;
      EmptyProduced(tokens, s, View());
      return Got(EMPTY_SCALAR);
    }

    /** Read the directives of a document and add the default tag directives. */
    method ProcessDirectives() returns (ok: bool, version: Option<(int, int)>, directives: seq<TagDirective>)
      requires head < |tokens| && error.None? && !streamEndProduced
      modifies this`head, this`streamEndProduced, this`error, this`tagDirectives
      ensures old(head) <= head <= |tokens|
      ensures !ok ==> error.Some?
      ensures ok ==> error.None? && head < |tokens| && !streamEndProduced && Consumed(tokens, View()) == old(Consumed(tokens, View()))
      ensures ok ==> !tokens[head].kind.VersionDirectiveToken? && !tokens[head].kind.TagDirectiveToken?
      ensures match DirectivesFrom(tokens, old(head), Declarations(None, [], old(tagDirectives)))
              case None => !ok
              case Some((h, d)) => ok && head == h && version == d.version && directives == d.own && tagDirectives == WithDefaults(d.tags)
      ensures ok ==> Distinct(directives) && forall i | 0 <= i < |directives| :: directives[i] in tagDirectives
      ensures ok ==> forall d | d in DEFAULT_TAG_DIRECTIVES :: Declared(tagDirectives, d.handle)
    {
      hide ConsumedItems, Declared, Declare, Orderly, WithDefaults;
      ok, version, directives := false, None, [];
      var token := Peek();
      NoneDeclared(tagDirectives);
      while IsDirective(token.value.kind)
        invariant old(head) <= head < |tokens| && token == Some(tokens[head]) && error.None?
        invariant Consumed(tokens, View()) == old(Consumed(tokens, View())) && !streamEndProduced
        invariant DirectivesFrom(tokens, head, Declarations(version, directives, tagDirectives))
               == DirectivesFrom(tokens, old(head), Declarations(None, [], old(tagDirectives)))
        invariant Orderly(Declarations(version, directives, tagDirectives))
        decreases |tokens| - head
      {
        var fine;
        ghost var d := Declarations(version, directives, tagDirectives);
        fine, version, directives := ProcessDirective(token.value, version, directives);
        if !fine { return; }
        OrderlyStep(token.value, d);
        Skip();
        token := Peek();
        if token.None? { return; }
      }
      ghost var d := Declarations(version, directives, tagDirectives);
      AppendDefaults();
      DefaultsDeclared(d.tags);
      OrderlyUnder(d, tagDirectives);
      ok := true;
    }

    /** One directive: a version that is new and 1.1, or a tag directive whose handle is new. */
    method ProcessDirective(token: Token, version: Option<(int, int)>, directives: seq<TagDirective>)
      returns (ok: bool, version': Option<(int, int)>, directives': seq<TagDirective>)
      requires IsDirective(token.kind) && error.None?
      modifies this`error, this`tagDirectives
      ensures ok <==> error.None?
      ensures Declare(token, Declarations(version, directives, old(tagDirectives)))
           == if ok then Some(Declarations(version', directives', tagDirectives)) else None
    {
      ok, version', directives' := false, version, directives;
      if token.kind.VersionDirectiveToken? {
        if version.Some? {
          error := Some(DuplicateVersion);
          return;
        }
        if token.major != 1 || token.minor != 1 {
          error := Some(IncompatibleVersion);
          return;
        }
        version' := Some((token.major, token.minor));
        ok := true;
      } else {
        var value := TagDirective(token.value, token.prefix);
        ok := AppendTagDirective(value, false);
        if ok { directives' := directives + [value]; }
      }
    }

    method AppendDefaults()
      requires error.None?
      modifies this`tagDirectives, this`error
      ensures error.None? && tagDirectives == WithDefaults(old(tagDirectives))
    {
      hide Declared;
      var i := 0;
      while i < |DEFAULT_TAG_DIRECTIVES|
        invariant 0 <= i <= 2 && error.None?
        invariant tagDirectives == match i
                                   case 0 => old(tagDirectives)
                                   case 1 => Appended(old(tagDirectives), DEFAULT_TAG_DIRECTIVES[0])
                                   case _ => WithDefaults(old(tagDirectives))
      {
        var _ := AppendTagDirective(DEFAULT_TAG_DIRECTIVES[i], true);
        i := i + 1;
      }
    }

    method AppendTagDirective(value: TagDirective, allowDuplicates: bool) returns (ok: bool)
      requires error.None?
      modifies this`tagDirectives, this`error
      ensures ok <==> allowDuplicates || !Declared(old(tagDirectives), value.handle)
      ensures ok ==> error.None? && Declared(tagDirectives, value.handle)
      ensures !ok ==> error == Some(DuplicateTagDirective)
      ensures tagDirectives == if Declared(old(tagDirectives), value.handle) then old(tagDirectives) else old(tagDirectives) + [value]
    {
      var i := 0;
      while i < |tagDirectives|
        invariant 0 <= i <= |tagDirectives|
        invariant forall j | 0 <= j < i :: tagDirectives[j].handle != value.handle
      {
        if value.handle == tagDirectives[i].handle {
          if allowDuplicates { return true; }
          error := Some(DuplicateTagDirective);
          return false;
        }
        i := i + 1;
      }
      tagDirectives := tagDirectives + [value];
      assert tagDirectives[|tagDirectives| - 1].handle == value.handle;
      return true;
    }
  }
}
