/**
 What one production of the parser yields, as a function of the tokens ahead, the stack and the tag
 directives in force.

 `Next` is the move of the parser from one configuration to the next.
 */
module YamlMoves {
  import opened Wrappers
  import opened YamlEvents
  import opened YamlTokens
  import opened YamlDirectives

  datatype Config = Config(head: nat, state: State, states: seq<State>, tags: seq<TagDirective>)

  datatype Move = Stuck | Move(event: Event, next: Config)

  function KindAt(tokens: seq<Token>, h: nat): Option<TokenKind> {
    if h < |tokens| then Some(tokens[h].kind) else None
  }

  predicate Is(tokens: seq<Token>, h: nat, kind: TokenKind) {
    KindAt(tokens, h) == Some(kind)
  }

  /** Return to the continuation on the stack. */
  function Popped(head: nat, states: seq<State>, tags: seq<TagDirective>): Config
    requires states != []
  {
    Config(head, states[|states| - 1], states[..|states| - 1], tags)
  }

  /** The event and the state of a collection that starts with such a token. */
  function Started(kind: TokenKind, anchor: Option<Bytes>, tag: Bytes, block: bool, indentless: bool): Option<(Event, State)> {
    match kind
    case FlowSequenceStartToken => Some((SequenceStart(anchor, tag, tag == [], Flow), FlowSequenceFirstEntryState))
    case FlowMappingStartToken => Some((MappingStart(anchor, tag, tag == [], Flow), FlowMappingFirstKeyState))
    case BlockEntryToken =>
      if indentless then Some((SequenceStart(anchor, tag, tag == [], Block), IndentlessSequenceEntryState)) else None
    case BlockSequenceStartToken =>
      if block then Some((SequenceStart(anchor, tag, tag == [], Block), BlockSequenceFirstEntryState)) else None
    case BlockMappingStartToken =>
      if block then Some((MappingStart(anchor, tag, tag == [], Block), BlockMappingFirstKeyState)) else None
    case _ => None
  }

  /** The content of a node after its properties, with the continuation on the stack. */
  function ContentMove(tokens: seq<Token>, h: nat, states: seq<State>, tags: seq<TagDirective>, anchor: Option<Bytes>, tag: Bytes,
                       block: bool, indentless: bool): Move
  {
    if states == [] || h >= |tokens| then Stuck
    else if tokens[h].kind.ScalarToken? then
      var token := tokens[h];
      Move(Scalar(anchor, tag, token.value, (tag == [] && token.style.Plain?) || tag == [33],
                  tag == [] && !token.style.Plain?, token.style), Popped(h + 1, states, tags))
    else
      match Started(tokens[h].kind, anchor, tag, block, indentless)
      case Some((e, s)) => Move(e, Config(h, s, states, tags))
      case None =>
        if (anchor.Some? && anchor.value != []) || tag != [] then
          Move(Scalar(anchor, tag, [], tag == [], false, Plain), Popped(h, states, tags))
        else Stuck
  }

  /** The properties of a node: where its content starts, its anchor and its tag token. */
  function PropertiesAt(tokens: seq<Token>, h: nat): (nat, Option<Bytes>, Option<Token>) {
    if Is(tokens, h, AnchorToken) then
      if Is(tokens, h + 1, TagToken) then (h + 2, Some(tokens[h].value), Some(tokens[h + 1]))
      else (h + 1, Some(tokens[h].value), None)
    else if Is(tokens, h, TagToken) then
      if Is(tokens, h + 1, AnchorToken) then (h + 2, Some(tokens[h + 1].value), Some(tokens[h]))
      else (h + 1, None, Some(tokens[h]))
    else (h, None, None)
  }

  /** A node: an alias, or properties and content. */
  function NodeMove(tokens: seq<Token>, h: nat, states: seq<State>, tags: seq<TagDirective>, block: bool, indentless: bool): Move {
    if states == [] || h >= |tokens| then Stuck
    else if tokens[h].kind.AliasToken? then Move(Alias(tokens[h].value), Popped(h + 1, states, tags))
    else
      var (h1, anchor, tagToken) := PropertiesAt(tokens, h);
      match ResolveTag(tags, tagToken)
      case None => Stuck
      case Some(tag) => ContentMove(tokens, h1, states, tags, anchor, tag, block, indentless)
  }

  /** A node before `cont`, or the empty scalar in its place. */
  function NodeOrEmptyMove(tokens: seq<Token>, h: nat, states: seq<State>, tags: seq<TagDirective>, empty: bool, cont: State,
                           block: bool, indentless: bool): Move
  {
    if empty then Move(EMPTY_SCALAR, Config(h, cont, states, tags))
    else NodeMove(tokens, h, states + [cont], tags, block, indentless)
  }

  function CloseMove(e: Event, h: nat, states: seq<State>, tags: seq<TagDirective>): Move {
    if states == [] then Stuck else Move(e, Popped(h + 1, states, tags))
  }

  function BlockSequenceMove(tokens: seq<Token>, c: Config, first: bool): Move {
    var h := if first then c.head + 1 else c.head;
    if Is(tokens, h, BlockEntryToken) then
      if h + 1 >= |tokens| then Stuck
      else NodeOrEmptyMove(tokens, h + 1, c.states, c.tags, (Is(tokens, h + 1, BlockEntryToken) || Is(tokens, h + 1, BlockEndToken)),
                           BlockSequenceEntryState, true, false)
    else if Is(tokens, h, BlockEndToken) then CloseMove(SequenceEnd, h, c.states, c.tags)
    else Stuck
  }

  function IndentlessSequenceMove(tokens: seq<Token>, c: Config): Move {
    if c.head >= |tokens| || c.states == [] then Stuck
    else if Is(tokens, c.head, BlockEntryToken) then
      if c.head + 1 >= |tokens| then Stuck
      else NodeOrEmptyMove(tokens, c.head + 1, c.states, c.tags,
                           (Is(tokens, c.head + 1, BlockEntryToken) || Is(tokens, c.head + 1, KeyToken) || Is(tokens, c.head + 1, ValueToken) || Is(tokens, c.head + 1, BlockEndToken)),
                           IndentlessSequenceEntryState, true, false)
    else Move(SequenceEnd, Popped(c.head, c.states, c.tags))
  }

  function BlockKeyMove(tokens: seq<Token>, c: Config, first: bool): Move {
    var h := if first then c.head + 1 else c.head;
    if Is(tokens, h, KeyToken) then
      if h + 1 >= |tokens| then Stuck
      else NodeOrEmptyMove(tokens, h + 1, c.states, c.tags, (Is(tokens, h + 1, KeyToken) || Is(tokens, h + 1, ValueToken) || Is(tokens, h + 1, BlockEndToken)),
                           BlockMappingValueState, true, true)
    else if Is(tokens, h, BlockEndToken) then CloseMove(MappingEnd, h, c.states, c.tags)
    else Stuck
  }

  function BlockValueMove(tokens: seq<Token>, c: Config): Move {
    if c.head >= |tokens| then Stuck
    else if Is(tokens, c.head, ValueToken) then
      if c.head + 1 >= |tokens| then Stuck
      else NodeOrEmptyMove(tokens, c.head + 1, c.states, c.tags, (Is(tokens, c.head + 1, KeyToken) || Is(tokens, c.head + 1, ValueToken) || Is(tokens, c.head + 1, BlockEndToken)),
                           BlockMappingKeyState, true, true)
    else Move(EMPTY_SCALAR, Config(c.head, BlockMappingKeyState, c.states, c.tags))
  }

  /** Where the next entry of a flow collection starts, or its end token stands. */
  function FlowEntryAt(tokens: seq<Token>, c: Config, first: bool, end: TokenKind): Option<nat> {
    if first then if c.head + 1 < |tokens| then Some(c.head + 1) else None
    else if Is(tokens, c.head, end) then Some(c.head)
    else if Is(tokens, c.head, FlowEntryToken) && c.head + 1 < |tokens| then Some(c.head + 1)
    else None
  }

  function FlowSequenceMove(tokens: seq<Token>, c: Config, first: bool): Move {
    match FlowEntryAt(tokens, c, first, FlowSequenceEndToken)
    case None => Stuck
    case Some(h) =>
      if Is(tokens, h, KeyToken) then
        Move(MappingStart(None, [], true, Flow), Config(h + 1, FlowSequenceEntryMappingKeyState, c.states, c.tags))
      else if Is(tokens, h, FlowSequenceEndToken) then CloseMove(SequenceEnd, h, c.states, c.tags)
      else NodeOrEmptyMove(tokens, h, c.states, c.tags, false, FlowSequenceEntryState, false, false)
  }

  function PairKeyMove(tokens: seq<Token>, c: Config): Move {
    if c.head >= |tokens| then Stuck
    else if (Is(tokens, c.head, ValueToken) || Is(tokens, c.head, FlowEntryToken) || Is(tokens, c.head, FlowSequenceEndToken)) then
      Move(EMPTY_SCALAR, Config(c.head + 1, FlowSequenceEntryMappingValueState, c.states, c.tags))
    else NodeOrEmptyMove(tokens, c.head, c.states, c.tags, false, FlowSequenceEntryMappingValueState, false, false)
  }

  function PairValueMove(tokens: seq<Token>, c: Config): Move {
    if c.head >= |tokens| then Stuck
    else if Is(tokens, c.head, ValueToken) then
      if c.head + 1 >= |tokens| then Stuck
      else NodeOrEmptyMove(tokens, c.head + 1, c.states, c.tags,
                           (Is(tokens, c.head + 1, FlowEntryToken) || Is(tokens, c.head + 1, FlowSequenceEndToken)),
                           FlowSequenceEntryMappingEndState, false, false)
    else Move(EMPTY_SCALAR, Config(c.head, FlowSequenceEntryMappingEndState, c.states, c.tags))
  }

  function PairEndMove(tokens: seq<Token>, c: Config): Move {
    if c.head >= |tokens| then Stuck else Move(MappingEnd, Config(c.head, FlowSequenceEntryState, c.states, c.tags))
  }

  function FlowKeyMove(tokens: seq<Token>, c: Config, first: bool): Move {
    match FlowEntryAt(tokens, c, first, FlowMappingEndToken)
    case None => Stuck
    case Some(h) =>
      if Is(tokens, h, KeyToken) then
        if h + 1 >= |tokens| then Stuck
        else NodeOrEmptyMove(tokens, h + 1, c.states, c.tags,
                             (Is(tokens, h + 1, ValueToken) || Is(tokens, h + 1, FlowEntryToken) || Is(tokens, h + 1, FlowMappingEndToken)),
                             FlowMappingValueState, false, false)
      else if Is(tokens, h, FlowMappingEndToken) then CloseMove(MappingEnd, h, c.states, c.tags)
      else NodeOrEmptyMove(tokens, h, c.states, c.tags, false, FlowMappingEmptyValueState, false, false)
  }

  function FlowValueMove(tokens: seq<Token>, c: Config, empty: bool): Move {
    if c.head >= |tokens| then Stuck
    else if !empty && Is(tokens, c.head, ValueToken) then
      if c.head + 1 >= |tokens| then Stuck
      else NodeOrEmptyMove(tokens, c.head + 1, c.states, c.tags,
                           (Is(tokens, c.head + 1, FlowEntryToken) || Is(tokens, c.head + 1, FlowMappingEndToken)),
                           FlowMappingKeyState, false, false)
    else Move(EMPTY_SCALAR, Config(c.head, FlowMappingKeyState, c.states, c.tags))
  }

  /** The first token that is not DOCUMENT-END. */
  function PastDocumentEnds(tokens: seq<Token>, h: nat): (r: nat)
    requires h <= |tokens|
    ensures h <= r <= |tokens|
    ensures forall i :: h <= i < r ==> tokens[i].kind.DocumentEndToken?
    ensures r < |tokens| ==> !tokens[r].kind.DocumentEndToken?
    decreases |tokens| - h
  {
    if h < |tokens| && tokens[h].kind.DocumentEndToken? then PastDocumentEnds(tokens, h + 1) else h
  }

  /** A document with a start token, after its directives. */
  function ExplicitStartMove(tokens: seq<Token>, h: nat, states: seq<State>, tags: seq<TagDirective>): Move {
    match DirectivesFrom(tokens, h, Declarations(None, [], tags))
    case None => Stuck
    case Some((h1, d)) =>
      if tokens[h1].kind.DocumentStartToken? then
        Move(DocumentStart(d.version, d.own, false),
             Config(h1 + 1, DocumentContentState, states + [DocumentEndState], WithDefaults(d.tags)))
      else Stuck
  }

  /** The token can start a document that has no start token. */
  predicate StartsImplicit(k: TokenKind) {
    !IsDirective(k) && !k.DocumentStartToken? && !k.StreamEndToken?
  }

  function DocumentStartMove(tokens: seq<Token>, c: Config, implicit: bool): Move {
    if c.head > |tokens| then Stuck
    else
      var h := if implicit then c.head else PastDocumentEnds(tokens, c.head);
      if h >= |tokens| then Stuck
      else if tokens[h].kind.StreamEndToken? then Move(StreamEnd, Config(h + 1, EndState, c.states, c.tags))
      else if implicit && StartsImplicit(tokens[h].kind) then
        Move(DocumentStart(None, [], false), Config(h, BlockNodeState, c.states + [DocumentEndState], WithDefaults(c.tags)))
      else ExplicitStartMove(tokens, h, c.states, c.tags)
  }

  function DocumentContentMove(tokens: seq<Token>, c: Config): Move {
    if c.head >= |tokens| || c.states == [] then Stuck
    else if (Is(tokens, c.head, VersionDirectiveToken) || Is(tokens, c.head, TagDirectiveToken) || Is(tokens, c.head, DocumentStartToken) || Is(tokens, c.head, DocumentEndToken) || Is(tokens, c.head, StreamEndToken)) then
      Move(EMPTY_SCALAR, Popped(c.head, c.states, c.tags))
    else NodeMove(tokens, c.head, c.states, c.tags, true, false)
  }

  function DocumentEndMove(tokens: seq<Token>, c: Config): Move {
    if c.head >= |tokens| then Stuck
    else
      var explicit := Is(tokens, c.head, DocumentEndToken);
      Move(DocumentEnd(!explicit), Config(if explicit then c.head + 1 else c.head, DocumentStartState, c.states, []))
  }

  /** The event of the production of the current state, and the configuration after it. */
  function Next(tokens: seq<Token>, c: Config): Move {
    match c.state
    case StreamStartState =>
      if Is(tokens, c.head, StreamStartToken) then
        Move(StreamStart, Config(c.head + 1, ImplicitDocumentStartState, c.states, c.tags))
      else Stuck
    case ImplicitDocumentStartState => DocumentStartMove(tokens, c, true)
    case DocumentStartState => DocumentStartMove(tokens, c, false)
    case DocumentContentState => DocumentContentMove(tokens, c)
    case DocumentEndState => DocumentEndMove(tokens, c)
    case BlockNodeState => NodeMove(tokens, c.head, c.states, c.tags, true, false)
    case BlockSequenceFirstEntryState => BlockSequenceMove(tokens, c, true)
    case BlockSequenceEntryState => BlockSequenceMove(tokens, c, false)
    case IndentlessSequenceEntryState => IndentlessSequenceMove(tokens, c)
    case BlockMappingFirstKeyState => BlockKeyMove(tokens, c, true)
    case BlockMappingKeyState => BlockKeyMove(tokens, c, false)
    case BlockMappingValueState => BlockValueMove(tokens, c)
    case FlowSequenceFirstEntryState => FlowSequenceMove(tokens, c, true)
    case FlowSequenceEntryState => FlowSequenceMove(tokens, c, false)
    case FlowSequenceEntryMappingKeyState => PairKeyMove(tokens, c)
    case FlowSequenceEntryMappingValueState => PairValueMove(tokens, c)
    case FlowSequenceEntryMappingEndState => PairEndMove(tokens, c)
    case FlowMappingFirstKeyState => FlowKeyMove(tokens, c, true)
    case FlowMappingKeyState => FlowKeyMove(tokens, c, false)
    case FlowMappingValueState => FlowValueMove(tokens, c, false)
    case FlowMappingEmptyValueState => FlowValueMove(tokens, c, true)
    case EndState => Stuck
  }
}
