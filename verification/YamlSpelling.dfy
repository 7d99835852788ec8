/**
 The round trip from trees to tokens to events: however a list of documents is written, the parser's moves
 over the tokens yield exactly the events the trees flatten to.
 */
module YamlSpelling {
  import opened Wrappers
  import opened YamlEvents
  import opened YamlTokens
  import opened YamlDirectives
  import opened YamlMoves
  import opened YamlSource

  //
  // Runs of moves.
  //

  /** From `c` the parser yields these events one after the other and stands at `end`. */
  ghost predicate Yields(tokens: seq<Token>, c: Config, events: seq<Event>, end: Config)
    decreases |events|, 1
  {
    if events == [] then c == end else YieldsBy(tokens, Next(tokens, c), events, end)
  }

  /** The same when the first event is that of the move `m`. */
  ghost predicate YieldsBy(tokens: seq<Token>, m: Move, events: seq<Event>, end: Config)
    requires events != []
    decreases |events|, 0
  {
    m.Move? && m.event == events[0] && Yields(tokens, m.next, events[1..], end)
  }

  lemma {:induction false} YieldsThen(tokens: seq<Token>, c: Config, xs: seq<Event>, mid: Config, ys: seq<Event>, end: Config)
    requires Yields(tokens, c, xs, mid) && Yields(tokens, mid, ys, end)
    ensures Yields(tokens, c, xs + ys, end)
    decreases |xs|
  {
    hide Next;
    if xs == [] {
      assert xs + ys == ys;
    } else {
      YieldsThen(tokens, Next(tokens, c).next, xs[1..], mid, ys, end);
      assert (xs + ys)[1..] == xs[1..] + ys;
    }
  }

  /** The events of the move `m`, then those that follow. */
  lemma MoveThen(tokens: seq<Token>, c: Config, m: Move, xs: seq<Event>, mid: Config, ys: seq<Event>, end: Config)
    requires Next(tokens, c) == m && xs != [] && YieldsBy(tokens, m, xs, mid) && Yields(tokens, mid, ys, end)
    ensures Yields(tokens, c, xs + ys, end)
  {
    hide Next;
    YieldsThen(tokens, c, xs, mid, ys, end);
  }

  lemma ByMove(tokens: seq<Token>, e: Event, c: Config, rest: seq<Event>, end: Config)
    requires Yields(tokens, c, rest, end)
    ensures YieldsBy(tokens, Move(e, c), [e] + rest, end)
  {
    hide Next;
    assert ([e] + rest)[1..] == rest;
  }

  lemma OneMove(tokens: seq<Token>, e: Event, end: Config)
    ensures YieldsBy(tokens, Move(e, end), [e], end)
  {
    hide Next;
    NothingYields(tokens, end);
    ByMove(tokens, e, end, [], end);
    assert [e] + [] == [e];
  }

  lemma NothingYields(tokens: seq<Token>, c: Config)
    ensures Yields(tokens, c, [], c)
  {
  }

  lemma OneThen(tokens: seq<Token>, c: Config, e: Event, next: Config, rest: seq<Event>, end: Config)
    requires Next(tokens, c) == Move(e, next) && Yields(tokens, next, rest, end)
    ensures Yields(tokens, c, [e] + rest, end)
  {
    hide Next;
    ByMove(tokens, e, next, rest, end);
  }

  lemma YieldsOne(tokens: seq<Token>, c: Config, e: Event, end: Config)
    requires Next(tokens, c) == Move(e, end)
    ensures Yields(tokens, c, [e], end)
  {
    hide Next;
    OneMove(tokens, e, end);
  }

  lemma EventsRegroup(xs: seq<Event>, ys: seq<Event>, zs: seq<Event>)
    ensures (xs + ys) + zs == xs + (ys + zs)
  {
  }

  //
  // Tokens in place.
  //

  /** The tokens from `h` on start with `xs`. */
  ghost predicate At(tokens: seq<Token>, h: nat, xs: seq<Token>) {
    h + |xs| <= |tokens| && tokens[h..h + |xs|] == xs
  }

  lemma AtSplit(tokens: seq<Token>, h: nat, xs: seq<Token>, ys: seq<Token>)
    requires At(tokens, h, xs + ys)
    ensures At(tokens, h, xs) && At(tokens, h + |xs|, ys)
  {
    var all := tokens[h..h + |xs + ys|];
    assert all[..|xs|] == xs && all[|xs|..] == ys;
    assert tokens[h..h + |xs|] == all[..|xs|] && tokens[h + |xs|..h + |xs| + |ys|] == all[|xs|..];
  }

  lemma AtOne(tokens: seq<Token>, h: nat, x: Token, ys: seq<Token>)
    requires At(tokens, h, [x] + ys)
    ensures h < |tokens| && tokens[h] == x && At(tokens, h + 1, ys)
  {
    AtSplit(tokens, h, [x], ys);
    assert tokens[h..h + 1][0] == x;
  }

  lemma AtHead(tokens: seq<Token>, h: nat, xs: seq<Token>)
    requires At(tokens, h, xs) && xs != []
    ensures h < |tokens| && tokens[h] == xs[0]
  {
    assert tokens[h..h + |xs|][0] == tokens[h];
  }

  lemma AtFirst(tokens: seq<Token>, h: nat, kind: TokenKind, ys: seq<Token>)
    requires At(tokens, h, [Plainly(kind)] + ys)
    ensures Is(tokens, h, kind) && At(tokens, h + 1, ys)
  {
    AtOne(tokens, h, Plainly(kind), ys);
  }

  //
  // Places.
  //

  /** The state after a node at that place. */
  function Cont(at: Place): State {
    match at
    case Root => DocumentEndState
    case BlockItem => BlockSequenceEntryState
    case IndentlessItem => IndentlessSequenceEntryState
    case BlockKey => BlockMappingValueState
    case BlockValue => BlockMappingKeyState
    case FlowItem => FlowSequenceEntryState
    case FlowKey => FlowMappingValueState
    case LoneKey => FlowMappingEmptyValueState
    case FlowValue => FlowMappingKeyState
    case SingleKey => FlowSequenceEntryMappingValueState
    case SingleValue => FlowSequenceEntryMappingEndState
  }

  /** The tokens that can come after a node at that place. */
  predicate Ends(at: Place, k: TokenKind) {
    match at
    case Root => k.DocumentEndToken? || k.DocumentStartToken? || k.StreamEndToken? || IsDirective(k)
    case BlockItem => k.BlockEntryToken? || k.BlockEndToken?
    case IndentlessItem => k.BlockEntryToken? || k.KeyToken? || k.ValueToken? || k.BlockEndToken?
    case BlockKey => k.KeyToken? || k.ValueToken? || k.BlockEndToken?
    case BlockValue => k.KeyToken? || k.BlockEndToken?
    case FlowItem => k.FlowEntryToken? || k.FlowSequenceEndToken?
    case FlowKey => k.ValueToken? || k.FlowEntryToken? || k.FlowMappingEndToken?
    case LoneKey => k.FlowEntryToken? || k.FlowMappingEndToken?
    case FlowValue => k.FlowEntryToken? || k.FlowMappingEndToken?
    case SingleKey => k.ValueToken? || k.FlowEntryToken? || k.FlowSequenceEndToken?
    case SingleValue => k.FlowEntryToken? || k.FlowSequenceEndToken?
  }

  ghost predicate EndsAt(tokens: seq<Token>, h: nat, at: Place) {
    h < |tokens| && Ends(at, tokens[h].kind)
  }

  /** The tokens a node at that place can start with. */
  predicate Starts(at: Place, k: TokenKind) {
    || k.AliasToken? || k.AnchorToken? || k.TagToken? || k.ScalarToken? || k.FlowSequenceStartToken?
    || k.FlowMappingStartToken? || k.BlockSequenceStartToken? || k.BlockMappingStartToken?
    || (TakesIndentless(at) && k.BlockEntryToken?)
  }

  function PlaceMove(tokens: seq<Token>, h: nat, states: seq<State>, tags: seq<TagDirective>, at: Place, empty: bool): Move {
    NodeOrEmptyMove(tokens, h, states, tags, empty, Cont(at), !Flowing(at), TakesIndentless(at))
  }

  /** The parser is about to read a node at that place, whose tokens start at `h`. */
  ghost predicate Opens(tokens: seq<Token>, c: Config, h: nat, at: Place) {
    match at
    case Root => false
    case BlockItem =>
      || (c.state.BlockSequenceFirstEntryState? && Is(tokens, c.head + 1, BlockEntryToken) && h == c.head + 2)
      || (c.state.BlockSequenceEntryState? && Is(tokens, c.head, BlockEntryToken) && h == c.head + 1)
    case IndentlessItem =>
      c.state.IndentlessSequenceEntryState? && Is(tokens, c.head, BlockEntryToken) && h == c.head + 1 && c.states != []
    case BlockKey =>
      || (c.state.BlockMappingFirstKeyState? && Is(tokens, c.head + 1, KeyToken) && h == c.head + 2)
      || (c.state.BlockMappingKeyState? && Is(tokens, c.head, KeyToken) && h == c.head + 1)
    case BlockValue => c.state.BlockMappingValueState? && Is(tokens, c.head, ValueToken) && h == c.head + 1
    case FlowItem =>
      && h == c.head + 1
      && (c.state.FlowSequenceFirstEntryState? || (c.state.FlowSequenceEntryState? && Is(tokens, c.head, FlowEntryToken)))
    case FlowKey =>
      && h == c.head + 2 && Is(tokens, c.head + 1, KeyToken)
      && (c.state.FlowMappingFirstKeyState? || (c.state.FlowMappingKeyState? && Is(tokens, c.head, FlowEntryToken)))
    case LoneKey =>
      && h == c.head + 1
      && (c.state.FlowMappingFirstKeyState? || (c.state.FlowMappingKeyState? && Is(tokens, c.head, FlowEntryToken)))
    case FlowValue => c.state.FlowMappingValueState? && Is(tokens, c.head, ValueToken) && h == c.head + 1
    case SingleKey => c.state.FlowSequenceEntryMappingKeyState? && h == c.head
    case SingleValue => c.state.FlowSequenceEntryMappingValueState? && Is(tokens, c.head, ValueToken) && h == c.head + 1
  }

  /** The move there is that of a node, or of the empty scalar where a token ends the place at once. */
  lemma PlaceNext(tokens: seq<Token>, c: Config, h: nat, at: Place, empty: bool)
    requires Opens(tokens, c, h, at) && h < |tokens|
    requires if empty then MayBeNothing(at) && Ends(at, tokens[h].kind) else Starts(at, tokens[h].kind)
    ensures Next(tokens, c) == PlaceMove(tokens, h, c.states, c.tags, at, empty)
  {
    hide NodeMove;
  }

  //
  // Nodes.
  //

  lemma PopPushed(h: nat, states: seq<State>, cont: State, tags: seq<TagDirective>)
    ensures Popped(h, states + [cont], tags) == Config(h, cont, states, tags)
  {
    assert (states + [cont])[..|states|] == states;
  }

  lemma PropertiesRead(tokens: seq<Token>, h: nat, p: Properties)
    requires At(tokens, h, PropertyTokens(p))
    requires var h1 := h + |PropertyTokens(p)|; h1 < |tokens| && !tokens[h1].kind.AnchorToken? && !tokens[h1].kind.TagToken?
    ensures PropertiesAt(tokens, h)
            == (h + |PropertyTokens(p)|, p.anchor, if p.tag.NoTag? then None else Some(TagTokens(p.tag)[0]))
    ensures h < |tokens| && (PropertyTokens(p) != [] ==> !tokens[h].kind.AliasToken?)
  {
    var ps := PropertyTokens(p);
    assert forall i | h <= i < h + |ps| :: tokens[i] == tokens[h..h + |ps|][i - h];
  }

  /** Properties, in either order, are read and leave the content of the node. */
  lemma PropertiesMove(tokens: seq<Token>, h: nat, p: Properties, states: seq<State>, tags: seq<TagDirective>, block: bool, indentless: bool)
    requires At(tokens, h, PropertyTokens(p)) && states != [] && Resolved(p, tags)
    requires var h1 := h + |PropertyTokens(p)|;
             h1 < |tokens| && !tokens[h1].kind.AnchorToken? && !tokens[h1].kind.TagToken? && !tokens[h1].kind.AliasToken?
    ensures NodeMove(tokens, h, states, tags, block, indentless)
            == ContentMove(tokens, h + |PropertyTokens(p)|, states, tags, p.anchor, TagOf(p, tags), block, indentless)
  {
    hide ContentMove, PropertiesAt, At;
    PropertiesRead(tokens, h, p);
    TagResolves(p, tags);
  }

  lemma TagResolves(p: Properties, tags: seq<TagDirective>)
    requires Resolved(p, tags)
    ensures ResolveTag(tags, if p.tag.NoTag? then None else Some(TagTokens(p.tag)[0])) == Some(TagOf(p, tags))
  {
    if p.tag.Shorthand? {
      forall i: nat ensures FirstWith(tags, p.tag.handle, i) ==>
                Lookup(tags, p.tag.handle, p.tag.suffix) == tags[i].prefix + p.tag.suffix
      {
        LookupMeans(tags, p.tag.handle, p.tag.suffix, i);
      }
    }
  }

  lemma NodeStarts(tokens: seq<Token>, h: nat, x: Source, at: Place, tags: seq<TagDirective>)
    requires Fits(x, at, tags) && !x.Nothing? && !x.Single? && At(tokens, h, Spelled(x))
    ensures h < |tokens| && Starts(at, tokens[h].kind)
  {
    hide FlowItems, FlowEntries, BlockEntries, At, Fits;
    var s := Spelled(x);
    FirstToken(x, at, tags);
    AtHead(tokens, h, s);
  }

  lemma FirstToken(x: Source, at: Place, tags: seq<TagDirective>)
    requires Fits(x, at, tags) && !x.Nothing? && !x.Single?
    ensures Spelled(x) != [] && Starts(at, Spelled(x)[0].kind)
  {
    hide FlowItems, FlowEntries, BlockEntries;
  }

  /** What reading a node at a place means. */
  ghost predicate PlaceYields(tokens: seq<Token>, h: nat, x: Source, at: Place, states: seq<State>, tags: seq<TagDirective>) {
    && Events(x, tags) != []
    && YieldsBy(tokens, PlaceMove(tokens, h, states, tags, at, x.Nothing?), Events(x, tags),
                Config(h + |Spelled(x)|, Cont(at), states, tags))
  }

  /** A node's tokens yield its events and lead to the continuation of its place. */
  lemma {:induction false} NodeYields(tokens: seq<Token>, h: nat, x: Source, at: Place, states: seq<State>, tags: seq<TagDirective>)
    requires Fits(x, at, tags) && !x.Single? && At(tokens, h, Spelled(x)) && EndsAt(tokens, h + |Spelled(x)|, at)
    ensures PlaceYields(tokens, h, x, at, states, tags)
    decreases x, 8
  {
    match x
    case Nothing => OneMove(tokens, EMPTY_SCALAR, Config(h, Cont(at), states, tags));
    case Items(_, _, _) => ItemsYield(tokens, h, x, at, states, tags);
    case Pairs(_, _, _) => PairsYield(tokens, h, x, at, states, tags);
    case _ => LeafYields(tokens, h, x, at, states, tags);
  }

  lemma LeafYields(tokens: seq<Token>, h: nat, x: Source, at: Place, states: seq<State>, tags: seq<TagDirective>)
    requires Fits(x, at, tags) && (x.AliasOf? || x.Bare? || x.Text?)
    requires At(tokens, h, Spelled(x)) && EndsAt(tokens, h + |Spelled(x)|, at)
    ensures PlaceYields(tokens, h, x, at, states, tags)
  {
    hide Yields, YieldsBy, Next, At, NodeMove, Fits, Spelled, EndsAt;
    var e := TreeOf(x, tags).event;
    LeafMove(tokens, h, x, at, states + [Cont(at)], tags);
    PopPushed(h + |Spelled(x)|, states, Cont(at), tags);
    OneMove(tokens, e, Config(h + |Spelled(x)|, Cont(at), states, tags));
  }

  lemma LeafMove(tokens: seq<Token>, h: nat, x: Source, at: Place, stack: seq<State>, tags: seq<TagDirective>)
    requires Fits(x, at, tags) && (x.AliasOf? || x.Bare? || x.Text?) && stack != []
    requires At(tokens, h, Spelled(x)) && EndsAt(tokens, h + |Spelled(x)|, at)
    ensures NodeMove(tokens, h, stack, tags, !Flowing(at), TakesIndentless(at))
            == Move(TreeOf(x, tags).event, Popped(h + |Spelled(x)|, stack, tags))
  {
    hide At, PropertyTokens, PropertiesAt, NodeMove;
    match x
    case AliasOf(name) => AliasMove(tokens, h, name, stack, tags, !Flowing(at), TakesIndentless(at));
    case Bare(p) =>
      PropertiesMove(tokens, h, p, stack, tags, !Flowing(at), TakesIndentless(at));
    case Text(p, value, style) =>
      var content := [Plainly(ScalarToken).(value := value, style := style)];
      AtSplit(tokens, h, PropertyTokens(p), content);
      AtHead(tokens, h + |PropertyTokens(p)|, content);
      PropertiesMove(tokens, h, p, stack, tags, !Flowing(at), TakesIndentless(at));
  }

  lemma AliasMove(tokens: seq<Token>, h: nat, name: Bytes, stack: seq<State>, tags: seq<TagDirective>, block: bool, indentless: bool)
    requires At(tokens, h, [Plainly(AliasToken).(value := name)]) && stack != []
    ensures NodeMove(tokens, h, stack, tags, block, indentless) == Move(Alias(name), Popped(h + 1, stack, tags))
  {
    AtHead(tokens, h, [Plainly(AliasToken).(value := name)]);
  }

  /** One node, then what follows. */
  lemma {:induction false} NodeThen(tokens: seq<Token>, c: Config, h: nat, x: Source, at: Place, rest: seq<Event>, end: Config)
    requires Opens(tokens, c, h, at) && Fits(x, at, c.tags) && !x.Single? && At(tokens, h, Spelled(x))
    requires EndsAt(tokens, h + |Spelled(x)|, at)
    requires Yields(tokens, Config(h + |Spelled(x)|, Cont(at), c.states, c.tags), rest, end)
    ensures Yields(tokens, c, Events(x, c.tags) + rest, end)
    decreases x, 9
  {
    hide Next, At, Yields, YieldsBy, PlaceMove, Opens, Spelled, Events, Cont;
    NodeYields(tokens, h, x, at, c.states, c.tags);
    if x.Nothing? {
      assert |Spelled(x)| == 0 by { NothingSpelled(); }
    } else {
      NodeStarts(tokens, h, x, at, c.tags);
    }
    PlaceNext(tokens, c, h, at, x.Nothing?);
    MoveThen(tokens, c, PlaceMove(tokens, h, c.states, c.tags, at, x.Nothing?), Events(x, c.tags),
             Config(h + |Spelled(x)|, Cont(at), c.states, c.tags), rest, end);
  }

  lemma NothingSpelled()
    ensures Spelled(Nothing) == []
  {
  }

  //
  // Sequences.
  //

  function FirstItemState(form: Form): State {
    match form
    case InFlow(_) => FlowSequenceFirstEntryState
    case InBlock => BlockSequenceFirstEntryState
    case Indentless => IndentlessSequenceEntryState
  }

  /** The start of a collection and what follows it. */
  lemma CollectionYields(tokens: seq<Token>, h: nat, x: Source, at: Place, states: seq<State>, tags: seq<TagDirective>,
                         o: Event, start: Config, inner: seq<Event>)
    requires !x.Nothing? && Events(x, tags) == [o] + inner
    requires NodeMove(tokens, h, states + [Cont(at)], tags, !Flowing(at), TakesIndentless(at)) == Move(o, start)
    requires Yields(tokens, start, inner, Popped(h + |Spelled(x)|, states + [Cont(at)], tags))
    ensures PlaceYields(tokens, h, x, at, states, tags)
  {
    hide Yields, YieldsBy, Next, Spelled, Events, NodeMove, Cont;
    PopPushed(h + |Spelled(x)|, states, Cont(at), tags);
    ByMove(tokens, o, start, inner, Config(h + |Spelled(x)|, Cont(at), states, tags));
  }

  lemma {:induction false} ItemsYield(tokens: seq<Token>, h: nat, x: Source, at: Place, states: seq<State>, tags: seq<TagDirective>)
    requires Fits(x, at, tags) && x.Items? && At(tokens, h, Spelled(x)) && EndsAt(tokens, h + |Spelled(x)|, at)
    ensures PlaceYields(tokens, h, x, at, states, tags)
    decreases x, 7
  {
    hide Yields, YieldsBy, Next, At, EndsAt, PropertyTokens, NodeMove, ContentMove, Fits, Spelled, ItemEvents, Events, Cont, ItemsBody;
    ItemsFit(x, at, tags);
    ItemsAre(x, tags);
    var p, stack := x.props, states + [Cont(at)];
    AtSplit(tokens, h, PropertyTokens(p), ItemsBody(x));
    var h1 := h + |PropertyTokens(p)|;
    AllItemsYield(tokens, h1, x, at, stack, tags);
    PropertiesMove(tokens, h, p, stack, tags, !Flowing(at), TakesIndentless(at));
    ItemsStart(tokens, h1, p, x.form, at, stack, tags);
    CollectionYields(tokens, h, x, at, states, tags, OpenItems(p, tags, x.form), Config(h1, FirstItemState(x.form), stack, tags),
                     ItemEvents(x.items, tags) + [SequenceEnd]);
  }

  /** What follows the properties of a sequence. */
  lemma {:induction false} AllItemsYield(tokens: seq<Token>, h: nat, x: Source, at: Place, stack: seq<State>, tags: seq<TagDirective>)
    requires Fits(x, at, tags) && x.Items? && At(tokens, h, ItemsBody(x)) && EndsAt(tokens, h + |ItemsBody(x)|, at) && stack != []
    ensures Is(tokens, h, ItemsToken(x.form))
    ensures Yields(tokens, Config(h, FirstItemState(x.form), stack, tags), ItemEvents(x.items, tags) + [SequenceEnd],
                   Popped(h + |ItemsBody(x)|, stack, tags))
    decreases x, 6
  {
    hide Yields, Next, At, Fits, ItemEvents, FlowItems, BlockItems, EndsAt;
    ItemsFit(x, at, tags);
    match x.form {
      case InFlow(comma) =>
        AtFirst(tokens, h, FlowSequenceStartToken, FlowItems(x.items, true, comma));
        FlowItemsYield(tokens, h + 1, x.items, true, comma, stack, tags);
      case InBlock =>
        AtFirst(tokens, h, BlockSequenceStartToken, BlockItems(x.items, true));
        BlockItemsYield(tokens, h + 1, x.items, true, stack, tags);
      case Indentless =>
        IndentlessHead(tokens, h, x.items);
        IndentlessEnd(tokens, h + |ItemsBody(x)|, at);
        IndentlessItemsYield(tokens, h, x.items, stack, tags);
    }
  }

  function ItemsBody(x: Source): seq<Token>
    requires x.Items?
  {
    match x.form
    case InFlow(comma) => [Plainly(FlowSequenceStartToken)] + FlowItems(x.items, true, comma)
    case InBlock => [Plainly(BlockSequenceStartToken)] + BlockItems(x.items, true)
    case Indentless => BlockItems(x.items, false)
  }

  /** The first token of the content. */
  function ItemsToken(form: Form): TokenKind {
    match form
    case InFlow(_) => FlowSequenceStartToken
    case InBlock => BlockSequenceStartToken
    case Indentless => BlockEntryToken
  }

  lemma ItemsAre(x: Source, tags: seq<TagDirective>)
    requires x.Items?
    ensures Spelled(x) == PropertyTokens(x.props) + ItemsBody(x)
    ensures Events(x, tags) == [OpenItems(x.props, tags, x.form)] + (ItemEvents(x.items, tags) + [SequenceEnd])
  {
    hide FlowItems, BlockItems, PropertyTokens;
    EventsRegroup([OpenItems(x.props, tags, x.form)], ItemEvents(x.items, tags), [SequenceEnd]);
  }

  lemma ItemsFit(x: Source, at: Place, tags: seq<TagDirective>)
    requires x.Items? && Fits(x, at, tags)
    ensures Resolved(x.props, tags) && (x.form.InBlock? ==> !Flowing(at))
    ensures x.form.Indentless? ==> TakesIndentless(at) && x.items != []
    ensures x.form.InFlow? && x.form.comma ==> x.items != []
    ensures forall i :: 0 <= i < |x.items| ==>
              Fits(x.items[i], if x.form.InFlow? then FlowItem else if x.form.InBlock? then BlockItem else IndentlessItem, tags)
  {
  }

  lemma ItemsStart(tokens: seq<Token>, h: nat, p: Properties, form: Form, at: Place, stack: seq<State>, tags: seq<TagDirective>)
    requires stack != [] && (form.InBlock? ==> !Flowing(at)) && (form.Indentless? ==> TakesIndentless(at))
    requires Is(tokens, h, ItemsToken(form))
    ensures ContentMove(tokens, h, stack, tags, p.anchor, TagOf(p, tags), !Flowing(at), TakesIndentless(at))
            == Move(OpenItems(p, tags, form), Config(h, FirstItemState(form), stack, tags))
  {
  }

  lemma IndentlessHead(tokens: seq<Token>, h: nat, xs: seq<Source>)
    requires xs != [] && At(tokens, h, BlockItems(xs, false))
    ensures Is(tokens, h, BlockEntryToken)
  {
    hide At, Spelled;
    AtFirst(tokens, h, BlockEntryToken, Spelled(xs[0]) + BlockItems(xs[1..], false));
  }

  /** What can follow an indentless sequence. */
  predicate AfterIndentless(k: TokenKind) { k.KeyToken? || k.ValueToken? || k.BlockEndToken? }

  lemma IndentlessEnd(tokens: seq<Token>, h: nat, at: Place)
    requires EndsAt(tokens, h, at) && TakesIndentless(at)
    ensures h < |tokens| && AfterIndentless(tokens[h].kind)
  {
  }

  /** The end of a flow sequence, behind a comma or not. */
  lemma FlowItemsClose(tokens: seq<Token>, h: nat, first: bool, comma: bool, states: seq<State>, tags: seq<TagDirective>)
    requires At(tokens, h, FlowEnd(comma, FlowSequenceEndToken)) && (first ==> h > 0 && !comma) && states != []
    ensures Next(tokens, FlowItemsAt(h, first, states, tags))
            == Move(SequenceEnd, Popped(h + |FlowEnd(comma, FlowSequenceEndToken)|, states, tags))
  {
    var end := FlowEnd(comma, FlowSequenceEndToken);
    assert forall i | h <= i < h + |end| :: tokens[i] == tokens[h..h + |end|][i - h];
  }

  function FlowItemsAt(h: nat, first: bool, states: seq<State>, tags: seq<TagDirective>): Config
    requires first ==> h > 0
  {
    if first then Config(h - 1, FlowSequenceFirstEntryState, states, tags) else Config(h, FlowSequenceEntryState, states, tags)
  }

  lemma FlowItemsHead(tokens: seq<Token>, h: nat, xs: seq<Source>, comma: bool)
    requires At(tokens, h, FlowItems(xs, false, comma))
    ensures EndsAt(tokens, h, FlowItem)
  {
    hide At, Spelled;
    AtHead(tokens, h, FlowItems(xs, false, comma));
  }

  lemma {:induction false} FlowItemsYield(tokens: seq<Token>, h: nat, xs: seq<Source>, first: bool, comma: bool,
                                          states: seq<State>, tags: seq<TagDirective>)
    requires (forall i :: 0 <= i < |xs| ==> Fits(xs[i], FlowItem, tags)) && At(tokens, h, FlowItems(xs, first, comma))
    requires (first ==> h > 0) && (first && comma ==> xs != []) && states != []
    ensures Yields(tokens, FlowItemsAt(h, first, states, tags), ItemEvents(xs, tags) + [SequenceEnd],
                   Popped(h + |FlowItems(xs, first, comma)|, states, tags))
    decreases xs, 5
  {
    hide Next, At, Yields, YieldsBy, Spelled, Events, Fits, EndsAt, FlowEnd;
    var c, end := FlowItemsAt(h, first, states, tags), Popped(h + |FlowItems(xs, first, comma)|, states, tags);
    if xs == [] {
      FlowItemsClose(tokens, h, first, comma, states, tags);
      YieldsOne(tokens, c, SequenceEnd, end);
      assert [] + [SequenceEnd] == [SequenceEnd];
    } else {
      var x, more := xs[0], FlowItems(xs[1..], false, comma);
      AtSplit(tokens, h, Separator(first), Spelled(x) + more);
      var h0 := h + |Separator(first)|;
      AtSplit(tokens, h0, Spelled(x), more);
      var h1 := h0 + |Spelled(x)|;
      FlowItemsHead(tokens, h1, xs[1..], comma);
      FlowItemsYield(tokens, h1, xs[1..], false, comma, states, tags);
      SeparatorAt(tokens, h, first);
      var rest := ItemEvents(xs[1..], tags) + [SequenceEnd];
      if x.Single? {
        SingleThen(tokens, c, h0, x, rest, end);
      } else {
        NodeThen(tokens, c, h0, x, FlowItem, rest, end);
      }
      ItemEventsCons(xs, tags);
      EventsRegroup(Events(x, tags), ItemEvents(xs[1..], tags), [SequenceEnd]);
    }
  }

  lemma SeparatorAt(tokens: seq<Token>, h: nat, first: bool)
    requires At(tokens, h, Separator(first))
    ensures !first ==> Is(tokens, h, FlowEntryToken)
  {
    hide At;
    if !first { AtHead(tokens, h, Separator(first)); }
  }

  lemma BlockItemsHead(tokens: seq<Token>, h: nat, xs: seq<Source>)
    requires At(tokens, h, BlockItems(xs, true))
    ensures EndsAt(tokens, h, BlockItem)
  {
    hide At, Spelled;
    AtHead(tokens, h, BlockItems(xs, true));
  }

  function BlockItemsAt(h: nat, first: bool, states: seq<State>, tags: seq<TagDirective>): Config
    requires first ==> h > 0
  {
    if first then Config(h - 1, BlockSequenceFirstEntryState, states, tags) else Config(h, BlockSequenceEntryState, states, tags)
  }

  /** `first` tells whether the head is still at the start token in front of `h`. */
  lemma {:induction false} BlockItemsYield(tokens: seq<Token>, h: nat, xs: seq<Source>, first: bool, states: seq<State>, tags: seq<TagDirective>)
    requires (forall i :: 0 <= i < |xs| ==> Fits(xs[i], BlockItem, tags)) && At(tokens, h, BlockItems(xs, true))
    requires (first ==> h > 0) && states != []
    ensures Yields(tokens, BlockItemsAt(h, first, states, tags), ItemEvents(xs, tags) + [SequenceEnd],
                   Popped(h + |BlockItems(xs, true)|, states, tags))
    decreases xs, 5
  {
    hide Next, At, Yields, YieldsBy, Spelled, Events, Fits, EndsAt;
    var c, end := BlockItemsAt(h, first, states, tags), Popped(h + |BlockItems(xs, true)|, states, tags);
    if xs == [] {
      AtHead(tokens, h, [Plainly(BlockEndToken)]);
      BlockClose(tokens, c, h, SequenceEnd);
      YieldsOne(tokens, c, SequenceEnd, end);
      assert [] + [SequenceEnd] == [SequenceEnd];
    } else {
      var x, more := xs[0], BlockItems(xs[1..], true);
      AtFirst(tokens, h, BlockEntryToken, Spelled(x) + more);
      AtSplit(tokens, h + 1, Spelled(x), more);
      var h1 := h + 1 + |Spelled(x)|;
      BlockItemsHead(tokens, h1, xs[1..]);
      BlockItemsYield(tokens, h1, xs[1..], false, states, tags);
      NotSingle(x, BlockItem, tags);
      NodeThen(tokens, c, h + 1, x, BlockItem, ItemEvents(xs[1..], tags) + [SequenceEnd], end);
      ItemEventsCons(xs, tags);
      EventsRegroup(Events(x, tags), ItemEvents(xs[1..], tags), [SequenceEnd]);
    }
  }

  lemma NotSingle(x: Source, at: Place, tags: seq<TagDirective>)
    requires Fits(x, at, tags) && !at.FlowItem?
    ensures !x.Single?
  {
  }

  /** BLOCK-END closes the block collection that is being read. */
  lemma BlockClose(tokens: seq<Token>, c: Config, h: nat, e: Event)
    requires c.states != [] && Is(tokens, h, BlockEndToken)
    requires e == SequenceEnd ==>
               (c.state.BlockSequenceFirstEntryState? && h == c.head + 1) || (c.state.BlockSequenceEntryState? && h == c.head)
    requires e == MappingEnd ==>
               (c.state.BlockMappingFirstKeyState? && h == c.head + 1) || (c.state.BlockMappingKeyState? && h == c.head)
    requires e == SequenceEnd || e == MappingEnd
    ensures Next(tokens, c) == Move(e, Popped(h + 1, c.states, c.tags))
  {
    hide NodeMove;
  }

  lemma {:induction false} IndentlessItemsYield(tokens: seq<Token>, h: nat, xs: seq<Source>, states: seq<State>, tags: seq<TagDirective>)
    requires (forall i :: 0 <= i < |xs| ==> Fits(xs[i], IndentlessItem, tags)) && At(tokens, h, BlockItems(xs, false))
    requires var h1 := h + |BlockItems(xs, false)|; h1 < |tokens| && AfterIndentless(tokens[h1].kind)
    requires states != []
    ensures Yields(tokens, Config(h, IndentlessSequenceEntryState, states, tags), ItemEvents(xs, tags) + [SequenceEnd],
                   Popped(h + |BlockItems(xs, false)|, states, tags))
    decreases xs, 5
  {
    hide Next, At, Yields, YieldsBy, Spelled, Events, Fits, EndsAt;
    var c, end := Config(h, IndentlessSequenceEntryState, states, tags), Popped(h + |BlockItems(xs, false)|, states, tags);
    if xs == [] {
      IndentlessClose(tokens, c);
      YieldsOne(tokens, c, SequenceEnd, end);
      assert [] + [SequenceEnd] == [SequenceEnd];
    } else {
      var x, more := xs[0], BlockItems(xs[1..], false);
      AtFirst(tokens, h, BlockEntryToken, Spelled(x) + more);
      AtSplit(tokens, h + 1, Spelled(x), more);
      var h1 := h + 1 + |Spelled(x)|;
      IndentlessNext(tokens, h1, xs[1..]);
      IndentlessItemsYield(tokens, h1, xs[1..], states, tags);
      NotSingle(x, IndentlessItem, tags);
      NodeThen(tokens, c, h + 1, x, IndentlessItem, ItemEvents(xs[1..], tags) + [SequenceEnd], end);
      ItemEventsCons(xs, tags);
      EventsRegroup(Events(x, tags), ItemEvents(xs[1..], tags), [SequenceEnd]);
    }
  }

  lemma IndentlessClose(tokens: seq<Token>, c: Config)
    requires c.state.IndentlessSequenceEntryState? && c.states != [] && c.head < |tokens| && AfterIndentless(tokens[c.head].kind)
    ensures Next(tokens, c) == Move(SequenceEnd, Popped(c.head, c.states, c.tags))
  {
    hide NodeMove;
  }

  lemma IndentlessNext(tokens: seq<Token>, h: nat, xs: seq<Source>)
    requires At(tokens, h, BlockItems(xs, false))
    requires var h1 := h + |BlockItems(xs, false)|; h1 < |tokens| && AfterIndentless(tokens[h1].kind)
    ensures EndsAt(tokens, h, IndentlessItem)
  {
    hide At, Spelled;
    if xs != [] { AtHead(tokens, h, BlockItems(xs, false)); }
  }

  //
  // Pairs.
  //

  /** The state in which the value of such a pair is read. */
  function ValueState(e: Entry, v: Place): State {
    match v
    case BlockValue => BlockMappingValueState
    case FlowValue => if e.lone then FlowMappingEmptyValueState else FlowMappingValueState
    case _ => FlowSequenceEntryMappingValueState
  }

  predicate IsValue(v: Place) { v.BlockValue? || v.FlowValue? || v.SingleValue? }

  /** A value, behind its token or left out. */
  lemma {:induction false} ValueThen(tokens: seq<Token>, c: Config, e: Entry, k: Place, v: Place, rest: seq<Event>, end: Config)
    requires IsValue(v) && EntryFits(e, k, v, c.tags) && c.state == ValueState(e, v) && (e.lone ==> v.FlowValue?)
    requires At(tokens, c.head, ValueTokens(e)) && EndsAt(tokens, c.head + |ValueTokens(e)|, v)
    requires Yields(tokens, Config(c.head + |ValueTokens(e)|, Cont(v), c.states, c.tags), rest, end)
    ensures Yields(tokens, c, Events(e.value, c.tags) + rest, end)
    decreases e, 3
  {
    hide Next, At, Yields, YieldsBy, Spelled, Fits;
    if e.marked {
      AtFirst(tokens, c.head, ValueToken, Spelled(e.value));
      NotSingle(e.value, v, c.tags);
      NodeThen(tokens, c, c.head + 1, e.value, v, rest, end);
    } else {
      NoValue(tokens, c, e, v);
      OneThen(tokens, c, EMPTY_SCALAR, Config(c.head, Cont(v), c.states, c.tags), rest, end);
      assert Events(Nothing, c.tags) == [EMPTY_SCALAR];
    }
  }

  lemma NoValue(tokens: seq<Token>, c: Config, e: Entry, v: Place)
    requires IsValue(v) && c.state == ValueState(e, v) && (e.lone ==> v.FlowValue?) && EndsAt(tokens, c.head, v)
    ensures Next(tokens, c) == Move(EMPTY_SCALAR, Config(c.head, Cont(v), c.states, c.tags))
  {
    hide NodeMove;
  }

  /** A pair whose tokens start at `h`, then what follows. */
  lemma {:induction false} EntryThen(tokens: seq<Token>, c: Config, h: nat, e: Entry, k: Place, v: Place, rest: seq<Event>, end: Config)
    requires Paired(e, k, v) && EntryFits(e, k, v, c.tags)
    requires At(tokens, h, EntryTokens(e)) && EndsAt(tokens, h + |EntryTokens(e)|, v)
    requires Opens(tokens, c, if e.lone then h else h + 1, k)
    requires Yields(tokens, Config(h + |EntryTokens(e)|, Cont(v), c.states, c.tags), rest, end)
    ensures Yields(tokens, c, Events(e.key, c.tags) + (Events(e.value, c.tags) + rest), end)
    decreases e, 4
  {
    hide Next, At, Yields, YieldsBy, Spelled, Fits, Events, Opens;
    var mark: seq<Token> := if e.lone then [] else [Plainly(KeyToken)];
    AtSplit(tokens, h, mark, Spelled(e.key) + ValueTokens(e));
    var hk := h + |mark|;
    AtSplit(tokens, hk, Spelled(e.key), ValueTokens(e));
    var hv := hk + |Spelled(e.key)|;
    ValueThen(tokens, Config(hv, Cont(k), c.states, c.tags), e, k, v, rest, end);
    KeyEnds(tokens, hv, e, k, v);
    NotSingle(e.key, k, c.tags);
    NodeThen(tokens, c, hk, e.key, k, Events(e.value, c.tags) + rest, end);
  }

  lemma KeyEnds(tokens: seq<Token>, h: nat, e: Entry, k: Place, v: Place)
    requires At(tokens, h, ValueTokens(e)) && EndsAt(tokens, h + |ValueTokens(e)|, v)
    requires Paired(e, k, v) && (e.marked ==> !e.lone)
    ensures EndsAt(tokens, h, k)
  {
    hide At, Spelled;
    if e.marked { AtHead(tokens, h, ValueTokens(e)); }
  }

  /** A single pair in a flow sequence. */
  lemma {:induction false} SingleThen(tokens: seq<Token>, c: Config, h: nat, x: Source, rest: seq<Event>, end: Config)
    requires x.Single? && Opens(tokens, c, h, FlowItem) && Fits(x, FlowItem, c.tags)
    requires At(tokens, h, Spelled(x)) && EndsAt(tokens, h + |Spelled(x)|, FlowItem)
    requires Yields(tokens, Config(h + |Spelled(x)|, FlowSequenceEntryState, c.states, c.tags), rest, end)
    ensures Yields(tokens, c, Events(x, c.tags) + rest, end)
    decreases x, 6
  {
    hide Next, At, Yields, YieldsBy, Events, ValueTokens;
    var e := x.entry;
    assert Spelled(x) == EntryTokens(e);
    var h1 := h + |EntryTokens(e)|;
    AtFirst(tokens, h, KeyToken, Spelled(e.key) + ValueTokens(e));
    SingleMoves(tokens, c, h, h1);
    var last := Config(h1, FlowSequenceEntryMappingEndState, c.states, c.tags);
    OneThen(tokens, last, MappingEnd, Config(h1, FlowSequenceEntryState, c.states, c.tags), rest, end);
    var first := Config(h + 1, FlowSequenceEntryMappingKeyState, c.states, c.tags);
    PlacesPaired(e);
    EntryThen(tokens, first, h, e, SingleKey, SingleValue, [MappingEnd] + rest, end);
    var k, v := Events(e.key, c.tags), Events(e.value, c.tags);
    OneThen(tokens, c, SINGLE_START, first, k + (v + ([MappingEnd] + rest)), end);
    SingleEvents(e, c.tags);
    SingleRegroup(k, v, rest);
  }

  lemma SingleRegroup(k: seq<Event>, v: seq<Event>, rest: seq<Event>)
    ensures [SINGLE_START] + (k + (v + [MappingEnd])) + rest == [SINGLE_START] + (k + (v + ([MappingEnd] + rest)))
  {
  }

  lemma SingleMoves(tokens: seq<Token>, c: Config, h: nat, h1: nat)
    requires Opens(tokens, c, h, FlowItem) && Is(tokens, h, KeyToken) && h1 < |tokens|
    ensures Next(tokens, c) == Move(SINGLE_START, Config(h + 1, FlowSequenceEntryMappingKeyState, c.states, c.tags))
    ensures Next(tokens, Config(h1, FlowSequenceEntryMappingEndState, c.states, c.tags))
            == Move(MappingEnd, Config(h1, FlowSequenceEntryState, c.states, c.tags))
  {
    hide NodeMove;
  }

  function FlowEntriesAt(h: nat, first: bool, states: seq<State>, tags: seq<TagDirective>): Config
    requires first ==> h > 0
  {
    if first then Config(h - 1, FlowMappingFirstKeyState, states, tags) else Config(h, FlowMappingKeyState, states, tags)
  }

  lemma FlowEntriesClose(tokens: seq<Token>, h: nat, first: bool, comma: bool, states: seq<State>, tags: seq<TagDirective>)
    requires At(tokens, h, FlowEnd(comma, FlowMappingEndToken)) && (first ==> h > 0 && !comma) && states != []
    ensures Next(tokens, FlowEntriesAt(h, first, states, tags))
            == Move(MappingEnd, Popped(h + |FlowEnd(comma, FlowMappingEndToken)|, states, tags))
  {
    var end := FlowEnd(comma, FlowMappingEndToken);
    assert forall i | h <= i < h + |end| :: tokens[i] == tokens[h..h + |end|][i - h];
  }

  lemma FlowEntriesHead(tokens: seq<Token>, h: nat, es: seq<Entry>, comma: bool)
    requires At(tokens, h, FlowEntries(es, false, comma))
    ensures EndsAt(tokens, h, FlowValue)
  {
    hide At, EntryTokens;
    AtHead(tokens, h, FlowEntries(es, false, comma));
  }

  lemma EntryStarts(tokens: seq<Token>, h: nat, e: Entry)
    requires At(tokens, h, EntryTokens(e))
    ensures !e.lone ==> Is(tokens, h, KeyToken)
  {
    hide At, Spelled, ValueTokens;
    if !e.lone { AtFirst(tokens, h, KeyToken, Spelled(e.key) + ValueTokens(e)); }
  }

  lemma {:induction false} FlowEntriesYield(tokens: seq<Token>, h: nat, es: seq<Entry>, first: bool, comma: bool,
                                            states: seq<State>, tags: seq<TagDirective>)
    requires forall i :: 0 <= i < |es| ==> EntryFits(es[i], if es[i].lone then LoneKey else FlowKey, FlowValue, tags)
    requires At(tokens, h, FlowEntries(es, first, comma))
    requires (first ==> h > 0) && (first && comma ==> es != []) && states != []
    ensures Yields(tokens, FlowEntriesAt(h, first, states, tags), EntryEvents(es, tags) + [MappingEnd],
                   Popped(h + |FlowEntries(es, first, comma)|, states, tags))
    decreases es, 5
  {
    hide Next, At, Yields, YieldsBy, Events, EntryFits, EndsAt, FlowEnd, EntryTokens, Paired, EntryEvents;
    var c, end := FlowEntriesAt(h, first, states, tags), Popped(h + |FlowEntries(es, first, comma)|, states, tags);
    if es == [] {
      FlowEntriesClose(tokens, h, first, comma, states, tags);
      YieldsOne(tokens, c, MappingEnd, end);
      NoEntryEvents(tags);
      assert [] + [MappingEnd] == [MappingEnd];
    } else {
      FlowEntriesMore(tokens, h, es, first, comma, states, tags);
    }
  }

  /** The same where there is an entry. */
  lemma {:induction false} FlowEntriesMore(tokens: seq<Token>, h: nat, es: seq<Entry>, first: bool, comma: bool,
                                           states: seq<State>, tags: seq<TagDirective>)
    requires forall i :: 0 <= i < |es| ==> EntryFits(es[i], if es[i].lone then LoneKey else FlowKey, FlowValue, tags)
    requires At(tokens, h, FlowEntries(es, first, comma))
    requires (first ==> h > 0) && es != [] && states != []
    ensures Yields(tokens, FlowEntriesAt(h, first, states, tags), EntryEvents(es, tags) + [MappingEnd],
                   Popped(h + |FlowEntries(es, first, comma)|, states, tags))
    decreases es, 4
  {
    hide Next, At, Yields, YieldsBy, Events, EntryFits, EndsAt, FlowEnd, EntryTokens, Paired, EntryEvents, FlowEntries;
    var c, end := FlowEntriesAt(h, first, states, tags), Popped(h + |FlowEntries(es, first, comma)|, states, tags);
    var e, more := es[0], FlowEntries(es[1..], false, comma);
    FlowEntriesCons(es, first, comma);
    AtSplit(tokens, h, Separator(first), EntryTokens(e) + more);
    var h0 := h + |Separator(first)|;
    AtSplit(tokens, h0, EntryTokens(e), more);
    var h1 := h0 + |EntryTokens(e)|;
    FlowEntriesHead(tokens, h1, es[1..], comma);
    FlowEntriesYield(tokens, h1, es[1..], false, comma, states, tags);
    SeparatorAt(tokens, h, first);
    EntryStarts(tokens, h0, e);
    PlacesPaired(e);
    var k := if e.lone then LoneKey else FlowKey;
    EntryThen(tokens, c, h0, e, k, FlowValue, EntryEvents(es[1..], tags) + [MappingEnd], end);
    EntryEventsCons(es, tags);
    FourRegroup(Events(e.key, tags), Events(e.value, tags), EntryEvents(es[1..], tags), [MappingEnd]);
  }

  lemma FlowEntriesCons(es: seq<Entry>, first: bool, comma: bool)
    requires es != []
    ensures FlowEntries(es, first, comma) == Separator(first) + (EntryTokens(es[0]) + FlowEntries(es[1..], false, comma))
  {
    hide EntryTokens;
  }

  /** The places of a key and its value follow each other. */
  ghost predicate Paired(e: Entry, k: Place, v: Place) {
    && IsValue(v) && Cont(k) == ValueState(e, v) && (e.lone <==> k.LoneKey?)
    && !k.FlowItem? && forall t :: Ends(v, t) ==> Ends(k, t)
  }

  lemma PlacesPaired(e: Entry)
    ensures !e.lone ==> Paired(e, BlockKey, BlockValue) && Paired(e, SingleKey, SingleValue)
    ensures Paired(e, if e.lone then LoneKey else FlowKey, FlowValue)
  {
  }

  lemma FourRegroup(a: seq<Event>, b: seq<Event>, c: seq<Event>, d: seq<Event>)
    ensures (a + (b + c)) + d == a + (b + (c + d))
  {
  }

  function BlockEntriesAt(h: nat, first: bool, states: seq<State>, tags: seq<TagDirective>): Config
    requires first ==> h > 0
  {
    if first then Config(h - 1, BlockMappingFirstKeyState, states, tags) else Config(h, BlockMappingKeyState, states, tags)
  }

  lemma BlockEntriesHead(tokens: seq<Token>, h: nat, es: seq<Entry>)
    requires At(tokens, h, BlockEntries(es)) && (es != [] ==> !es[0].lone)
    ensures EndsAt(tokens, h, BlockValue)
  {
    hide At, Spelled, ValueTokens;
    AtHead(tokens, h, BlockEntries(es));
  }

  lemma BlockKeyOpens(tokens: seq<Token>, h: nat, first: bool, states: seq<State>, tags: seq<TagDirective>)
    requires Is(tokens, h, KeyToken) && (first ==> h > 0)
    ensures Opens(tokens, BlockEntriesAt(h, first, states, tags), h + 1, BlockKey)
  {
  }

  lemma {:induction false} BlockEntriesYield(tokens: seq<Token>, h: nat, es: seq<Entry>, first: bool, states: seq<State>, tags: seq<TagDirective>)
    requires forall i :: 0 <= i < |es| ==> !es[i].lone && EntryFits(es[i], BlockKey, BlockValue, tags)
    requires At(tokens, h, BlockEntries(es)) && (first ==> h > 0) && states != []
    ensures Yields(tokens, BlockEntriesAt(h, first, states, tags), EntryEvents(es, tags) + [MappingEnd],
                   Popped(h + |BlockEntries(es)|, states, tags))
    decreases es, 5
  {
    hide Next, At, Yields, YieldsBy, Events, EntryFits, EndsAt, EntryTokens, Opens, Paired, EntryEvents;
    var c, end := BlockEntriesAt(h, first, states, tags), Popped(h + |BlockEntries(es)|, states, tags);
    if es == [] {
      AtHead(tokens, h, [Plainly(BlockEndToken)]);
      BlockClose(tokens, c, h, MappingEnd);
      YieldsOne(tokens, c, MappingEnd, end);
      NoEntryEvents(tags);
      assert [] + [MappingEnd] == [MappingEnd];
    } else {
      var e, more := es[0], BlockEntries(es[1..]);
      AtSplit(tokens, h, EntryTokens(e), more);
      var h1 := h + |EntryTokens(e)|;
      BlockEntriesHead(tokens, h1, es[1..]);
      BlockEntriesYield(tokens, h1, es[1..], false, states, tags);
      EntryStarts(tokens, h, e);
      PlacesPaired(e);
      BlockKeyOpens(tokens, h, first, states, tags);
      EntryThen(tokens, c, h, e, BlockKey, BlockValue, EntryEvents(es[1..], tags) + [MappingEnd], end);
      EntryEventsCons(es, tags);
      FourRegroup(Events(e.key, tags), Events(e.value, tags), EntryEvents(es[1..], tags), [MappingEnd]);
    }
  }

  function FirstKeyState(form: Form): State {
    if form.InFlow? then FlowMappingFirstKeyState else BlockMappingFirstKeyState
  }

  lemma {:induction false} PairsYield(tokens: seq<Token>, h: nat, x: Source, at: Place, states: seq<State>, tags: seq<TagDirective>)
    requires Fits(x, at, tags) && x.Pairs? && At(tokens, h, Spelled(x)) && EndsAt(tokens, h + |Spelled(x)|, at)
    ensures PlaceYields(tokens, h, x, at, states, tags)
    decreases x, 7
  {
    hide Yields, YieldsBy, Next, At, EndsAt, PropertyTokens, NodeMove, ContentMove, Fits, Spelled, EntryEvents, Events, Cont, PairsBody;
    PairsFit(x, at, tags);
    PairsAre(x, tags);
    var p, stack := x.props, states + [Cont(at)];
    AtSplit(tokens, h, PropertyTokens(p), PairsBody(x));
    var h1 := h + |PropertyTokens(p)|;
    EntriesYield(tokens, h1, x, at, stack, tags);
    PropertiesMove(tokens, h, p, stack, tags, !Flowing(at), TakesIndentless(at));
    PairsStart(tokens, h1, p, x.form, at, stack, tags);
    CollectionYields(tokens, h, x, at, states, tags, OpenPairs(p, tags, x.form), Config(h1, FirstKeyState(x.form), stack, tags),
                     EntryEvents(x.entries, tags) + [MappingEnd]);
  }

  /** What follows the start token of a mapping. */
  lemma {:induction false} EntriesYield(tokens: seq<Token>, h: nat, x: Source, at: Place, stack: seq<State>, tags: seq<TagDirective>)
    requires Fits(x, at, tags) && x.Pairs? && At(tokens, h, PairsBody(x)) && stack != []
    ensures Is(tokens, h, if x.form.InFlow? then FlowMappingStartToken else BlockMappingStartToken)
    ensures Yields(tokens, Config(h, FirstKeyState(x.form), stack, tags), EntryEvents(x.entries, tags) + [MappingEnd],
                   Popped(h + |PairsBody(x)|, stack, tags))
    decreases x, 6
  {
    hide Yields, Next, At, Fits, EntryEvents, FlowEntries, BlockEntries;
    PairsFit(x, at, tags);
    if x.form.InFlow? {
      AtFirst(tokens, h, FlowMappingStartToken, FlowEntries(x.entries, true, x.form.comma));
      FlowEntriesYield(tokens, h + 1, x.entries, true, x.form.comma, stack, tags);
    } else {
      AtFirst(tokens, h, BlockMappingStartToken, BlockEntries(x.entries));
      BlockEntriesYield(tokens, h + 1, x.entries, true, stack, tags);
    }
  }

  function PairsBody(x: Source): seq<Token>
    requires x.Pairs?
  {
    match x.form
    case InFlow(comma) => [Plainly(FlowMappingStartToken)] + FlowEntries(x.entries, true, comma)
    case _ => [Plainly(BlockMappingStartToken)] + BlockEntries(x.entries)
  }

  lemma PairsAre(x: Source, tags: seq<TagDirective>)
    requires x.Pairs?
    ensures Spelled(x) == PropertyTokens(x.props) + PairsBody(x)
    ensures Events(x, tags) == [OpenPairs(x.props, tags, x.form)] + (EntryEvents(x.entries, tags) + [MappingEnd])
  {
    hide FlowEntries, BlockEntries, PropertyTokens;
    EventsRegroup([OpenPairs(x.props, tags, x.form)], EntryEvents(x.entries, tags), [MappingEnd]);
  }

  lemma PairsFit(x: Source, at: Place, tags: seq<TagDirective>)
    requires x.Pairs? && Fits(x, at, tags)
    ensures Resolved(x.props, tags) && !x.form.Indentless? && (x.form.InBlock? ==> !Flowing(at))
    ensures x.form.InFlow? ==> (x.form.comma ==> x.entries != []) && forall i :: 0 <= i < |x.entries| ==>
              EntryFits(x.entries[i], if x.entries[i].lone then LoneKey else FlowKey, FlowValue, tags)
    ensures x.form.InBlock? ==> forall i :: 0 <= i < |x.entries| ==>
              !x.entries[i].lone && EntryFits(x.entries[i], BlockKey, BlockValue, tags)
  {
    hide EntryFits;
  }

  lemma PairsStart(tokens: seq<Token>, h: nat, p: Properties, form: Form, at: Place, stack: seq<State>, tags: seq<TagDirective>)
    requires stack != [] && (form.InBlock? ==> !Flowing(at)) && !form.Indentless?
    requires Is(tokens, h, if form.InFlow? then FlowMappingStartToken else BlockMappingStartToken)
    ensures ContentMove(tokens, h, stack, tags, p.anchor, TagOf(p, tags), !Flowing(at), TakesIndentless(at))
            == Move(OpenPairs(p, tags, form),
                    Config(h, FirstKeyState(form), stack, tags))
  {
  }

  //
  // Documents.
  //

  lemma {:induction false} DirectivesRead(tokens: seq<Token>, h: nat, ds: seq<Token>, d: Declarations)
    requires At(tokens, h, ds) && h + |ds| < |tokens| && !IsDirective(tokens[h + |ds|].kind) && DeclareAll(ds, d).Some?
    ensures DirectivesFrom(tokens, h, d) == Some((h + |ds|, DeclareAll(ds, d).value))
    decreases |ds|
  {
    if ds != [] {
      assert ds == [ds[0]] + ds[1..];
      AtOne(tokens, h, ds[0], ds[1..]);
      DirectivesRead(tokens, h + 1, ds[1..], Declare(ds[0], d).value);
    }
  }

  /** All tokens from `g` up to `h` are document ends. */
  ghost predicate Ended(tokens: seq<Token>, g: nat, h: nat) {
    g <= h < |tokens| && !tokens[h].kind.DocumentEndToken? && forall i :: g <= i < h ==> tokens[i].kind.DocumentEndToken?
  }

  lemma {:induction false} PastEnds(tokens: seq<Token>, g: nat, h: nat)
    requires Ended(tokens, g, h)
    ensures PastDocumentEnds(tokens, g) == h
    decreases h - g
  {
    if g < h { PastEnds(tokens, g + 1, h); }
  }

  lemma {:induction false} TimesAt(tokens: seq<Token>, h: nat, n: nat)
    requires At(tokens, h, Times(n, Plainly(DocumentEndToken)))
    ensures |Times(n, Plainly(DocumentEndToken))| == n
    ensures forall i :: h <= i < h + n ==> tokens[i].kind.DocumentEndToken?
    decreases n
  {
    hide At;
    if n > 0 {
      AtFirst(tokens, h, DocumentEndToken, Times(n - 1, Plainly(DocumentEndToken)));
      TimesAt(tokens, h + 1, n - 1);
    }
  }

  function Before(g: nat, first: bool): Config {
    Config(g, if first then ImplicitDocumentStartState else DocumentStartState, [], [])
  }

  /** The configuration in front of the root of a document. */
  function RootAt(h: nat, doc: DocSource): Config
    requires DeclareAll(doc.directives, UNDECLARED).Some?
  {
    Config(h, if doc.explicit then DocumentContentState else BlockNodeState, [DocumentEndState], TagsOf(doc))
  }

  lemma HeaderRead(tokens: seq<Token>, h: nat, doc: DocSource, first: bool)
    requires GoodDoc(doc, first) && doc.explicit && At(tokens, h, Header(doc))
    ensures h < |tokens| && !StartsImplicit(tokens[h].kind) && !tokens[h].kind.StreamEndToken? && !tokens[h].kind.DocumentEndToken?
    ensures ExplicitStartMove(tokens, h, [], []) == Move(DocOf(doc).start, RootAt(h + |Header(doc)|, doc))
  {
    hide At, TreeOf, Fits, WithDefaults;
    var ds := doc.directives;
    AtSplit(tokens, h, ds, [Plainly(DocumentStartToken)]);
    AtHead(tokens, h + |ds|, [Plainly(DocumentStartToken)]);
    if ds != [] { AtHead(tokens, h, ds); }
    DirectivesRead(tokens, h, ds, UNDECLARED);
    assert [] + [DocumentEndState] == [DocumentEndState];
  }

  lemma DocumentStarts(tokens: seq<Token>, g: nat, h: nat, doc: DocSource, first: bool)
    requires GoodDoc(doc, first) && At(tokens, h, Header(doc)) && Ended(tokens, g, h) && (first ==> g == h)
    requires At(tokens, h + |Header(doc)|, Spelled(doc.root))
    ensures Next(tokens, Before(g, first)) == Move(DocOf(doc).start, RootAt(h + |Header(doc)|, doc))
  {
    hide At, TreeOf, Fits, WithDefaults, ExplicitStartMove, Spelled;
    if !first { PastEnds(tokens, g, h); }
    if doc.explicit {
      HeaderRead(tokens, h, doc, first);
    } else {
      NotSingle(doc.root, Root, TagsOf(doc));
      NodeStarts(tokens, h, doc.root, Root, TagsOf(doc));
      assert [] + [DocumentEndState] == [DocumentEndState];
    }
  }

  lemma RootNext(tokens: seq<Token>, h: nat, doc: DocSource, first: bool)
    requires GoodDoc(doc, first) && At(tokens, h, Spelled(doc.root)) && EndsAt(tokens, h + |Spelled(doc.root)|, Root)
    ensures Next(tokens, RootAt(h, doc)) == PlaceMove(tokens, h, [], TagsOf(doc), Root, doc.root.Nothing?)
  {
    hide At, NodeMove, Fits, TagsOf;
    assert [] + [DocumentEndState] == [DocumentEndState] && [DocumentEndState][..0] == [];
    if !doc.root.Nothing? {
      NotSingle(doc.root, Root, TagsOf(doc));
      NodeStarts(tokens, h, doc.root, Root, TagsOf(doc));
    }
  }

  lemma DocumentEnds(tokens: seq<Token>, h: nat, ends: nat, tags: seq<TagDirective>)
    requires Ended(tokens, h, h + ends)
    ensures var g := if ends > 0 then h + 1 else h;
            && Next(tokens, Config(h, DocumentEndState, [], tags)) == Move(DocumentEnd(ends == 0), Before(g, false))
            && Ended(tokens, g, h + ends)
  {
  }

  /** The tokens of further documents start where a document can end. */
  lemma DocsHead(tokens: seq<Token>, h: nat, docs: seq<DocSource>)
    requires GoodDocs(docs, false) && At(tokens, h, SpelledDocs(docs))
    ensures EndsAt(tokens, h, Root) && !tokens[h].kind.DocumentEndToken?
  {
    hide At, Spelled, Fits, WithDefaults;
    AtHead(tokens, h, SpelledDocs(docs));
    if docs != [] {
      AtSplit(tokens, h, Header(docs[0]), Spelled(docs[0].root) + (Times(docs[0].ends, Plainly(DocumentEndToken)) + SpelledDocs(docs[1..])));
      HeaderFirst(docs[0]);
    }
  }

  lemma HeaderFirst(doc: DocSource)
    requires GoodDoc(doc, false)
    ensures Header(doc) != [] && (IsDirective(Header(doc)[0].kind) || Header(doc)[0].kind.DocumentStartToken?)
  {
    hide Fits, WithDefaults;
  }

  /** One document, then what follows. */
  lemma DocumentYields(tokens: seq<Token>, g: nat, h: nat, doc: DocSource, first: bool, rest: seq<Event>, end: Config)
    requires GoodDoc(doc, first) && Ended(tokens, g, h) && (first ==> g == h)
    requires At(tokens, h, Header(doc)) && At(tokens, h + |Header(doc)|, Spelled(doc.root))
    requires var h2 := h + |Header(doc)| + |Spelled(doc.root)|;
             && EndsAt(tokens, h2, Root) && Ended(tokens, h2, h2 + doc.ends)
             && Yields(tokens, Before(if doc.ends > 0 then h2 + 1 else h2, false), rest, end)
    ensures Yields(tokens, Before(g, first), [DocOf(doc).start] + (Flatten(DocOf(doc).root) + ([DocOf(doc).end] + rest)), end)
  {
    hide Yields, YieldsBy, Next, At, EndsAt, Spelled, Fits, TagsOf, Flatten, Header, Ended;
    var h1, tags := h + |Header(doc)|, TagsOf(doc);
    var h2 := h1 + |Spelled(doc.root)|;
    var after := Config(h2, DocumentEndState, [], tags);
    DocumentEnds(tokens, h2, doc.ends, tags);
    OneThen(tokens, after, DocOf(doc).end, Before(if doc.ends > 0 then h2 + 1 else h2, false), rest, end);
    NotSingle(doc.root, Root, tags);
    NodeYields(tokens, h1, doc.root, Root, [], tags);
    RootNext(tokens, h1, doc, first);
    MoveThen(tokens, RootAt(h1, doc), PlaceMove(tokens, h1, [], tags, Root, doc.root.Nothing?), Events(doc.root, tags),
             after, [DocOf(doc).end] + rest, end);
    DocumentStarts(tokens, g, h, doc, first);
    OneThen(tokens, Before(g, first), DocOf(doc).start, RootAt(h1, doc), Events(doc.root, tags) + ([DocOf(doc).end] + rest), end);
  }

  lemma StreamEndMove(tokens: seq<Token>, g: nat, h: nat, first: bool)
    requires Ended(tokens, g, h) && (first ==> g == h) && tokens[h].kind.StreamEndToken?
    ensures Next(tokens, Before(g, first)) == Move(StreamEnd, Config(h + 1, EndState, [], []))
  {
    if !first { PastEnds(tokens, g, h); }
  }

  lemma NoDocsYield(tokens: seq<Token>, g: nat, h: nat, first: bool)
    requires At(tokens, h, SpelledDocs([])) && Ended(tokens, g, h) && (first ==> g == h)
    ensures Yields(tokens, Before(g, first), DocEvents(DocsOf([])) + [StreamEnd], Config(h + |SpelledDocs([])|, EndState, [], []))
  {
    hide Next, At, Yields, Ended;
    AtHead(tokens, h, [Plainly(StreamEndToken)]);
    StreamEndMove(tokens, g, h, first);
    YieldsOne(tokens, Before(g, first), StreamEnd, Config(h + 1, EndState, [], []));
    assert [] + [StreamEnd] == [StreamEnd];
  }

  lemma {:induction false} DocsYield(tokens: seq<Token>, g: nat, h: nat, docs: seq<DocSource>, first: bool)
    requires GoodDocs(docs, first) && At(tokens, h, SpelledDocs(docs)) && Ended(tokens, g, h) && (first ==> g == h)
    requires forall i :: 0 <= i < |docs| ==> DeclareAll(docs[i].directives, UNDECLARED).Some?
    ensures Yields(tokens, Before(g, first), DocEvents(DocsOf(docs)) + [StreamEnd], Config(h + |SpelledDocs(docs)|, EndState, [], []))
    decreases |docs|
  {
    hide Next, At, Yields, YieldsBy, Spelled, Flatten, Ended, Fits, DocOf, GoodDoc, GoodDocs, EndsAt, TagsOf, DeclareAll, Times, Header, Before, DocEvents, DocsOf;
    var end := Config(h + |SpelledDocs(docs)|, EndState, [], []);
    if docs == [] {
      NoDocsYield(tokens, g, h, first);
    } else {
      var doc, ends, more := docs[0], Times(docs[0].ends, Plainly(DocumentEndToken)), SpelledDocs(docs[1..]);
      AtSplit(tokens, h, Header(doc), Spelled(doc.root) + (ends + more));
      var h1 := h + |Header(doc)|;
      AtSplit(tokens, h1, Spelled(doc.root), ends + more);
      var h2 := h1 + |Spelled(doc.root)|;
      AtSplit(tokens, h2, ends, more);
      TimesAt(tokens, h2, doc.ends);
      var h3 := h2 + doc.ends;
      LaterDocs(docs, first);
      DocsHead(tokens, h3, docs[1..]);
      EndsThen(tokens, h2, h3);
      var next := if doc.ends > 0 then h2 + 1 else h2;
      DocumentEnds(tokens, h2, doc.ends, []);
      DocsYield(tokens, next, h3, docs[1..], false);
      var rest := DocEvents(DocsOf(docs[1..])) + [StreamEnd];
      DocumentYields(tokens, g, h, doc, first, rest, end);
      DocsRegroup(docs);
    }
  }

  lemma LaterDocs(docs: seq<DocSource>, first: bool)
    requires docs != [] && GoodDocs(docs, first)
    ensures GoodDoc(docs[0], first) && GoodDocs(docs[1..], false)
    ensures DeclareAll(docs[0].directives, UNDECLARED).Some?
    ensures forall i :: 0 <= i < |docs[1..]| ==> DeclareAll(docs[1..][i].directives, UNDECLARED).Some?
  {
    hide Fits, TagsOf;
    forall i | 0 <= i < |docs[1..]| ensures GoodDoc(docs[1..][i], false) {
      assert GoodDoc(docs[i + 1], first && i + 1 == 0);
    }
  }

  /** Document ends up to where the next document starts. */
  lemma EndsThen(tokens: seq<Token>, h: nat, h1: nat)
    requires h <= h1 && EndsAt(tokens, h1, Root) && !tokens[h1].kind.DocumentEndToken?
    requires forall i :: h <= i < h1 ==> tokens[i].kind.DocumentEndToken?
    ensures EndsAt(tokens, h, Root) && Ended(tokens, h, h1)
  {
  }

  lemma DocsRegroup(docs: seq<DocSource>)
    requires docs != [] && forall i :: 0 <= i < |docs| ==> DeclareAll(docs[i].directives, UNDECLARED).Some?
    ensures var d := DocOf(docs[0]);
            DocEvents(DocsOf(docs)) + [StreamEnd] == [d.start] + (Flatten(d.root) + ([d.end] + (DocEvents(DocsOf(docs[1..])) + [StreamEnd])))
  {
    hide DocOf, Flatten;
    var d, more := DocOf(docs[0]), DocEvents(DocsOf(docs[1..]));
    assert DocsOf(docs)[1..] == DocsOf(docs[1..]);
    DocRegroup(d.start, Flatten(d.root), d.end, more);
  }

  lemma DocRegroup(s: Event, body: seq<Event>, e: Event, more: seq<Event>)
    ensures ([s] + body + [e] + more) + [StreamEnd] == [s] + (body + ([e] + (more + [StreamEnd])))
  {
  }

  lemma GoodHeadings(docs: seq<DocSource>, first: bool)
    requires GoodDocs(docs, first)
    ensures forall i :: 0 <= i < |docs| ==> DeclareAll(docs[i].directives, UNDECLARED).Some?
  {
    hide Fits, TagsOf;
    forall i | 0 <= i < |docs| ensures DeclareAll(docs[i].directives, UNDECLARED).Some? {
      assert GoodDoc(docs[i], first && i == 0);
    }
  }

  /** However a list of documents is written, its tokens yield exactly the events of the documents. */
  lemma StreamYields(docs: seq<DocSource>)
    requires GoodDocs(docs, true)
    ensures forall i :: 0 <= i < |docs| ==> DeclareAll(docs[i].directives, UNDECLARED).Some?
    ensures var tokens := SpelledStream(docs);
            Yields(tokens, Config(0, StreamStartState, [], []), StreamEvents(DocsOf(docs)), Config(|tokens|, EndState, [], []))
  {
    hide Yields, GoodDoc, DocOf, At;
    GoodHeadings(docs, true);
    var tokens := SpelledStream(docs);
    AtAll(tokens);
    AtFirst(tokens, 0, StreamStartToken, SpelledDocs(docs));
    FirstDocument(tokens, 1, docs);
    DocsYield(tokens, 1, 1, docs, true);
    var events := DocEvents(DocsOf(docs)) + [StreamEnd];
    OneThen(tokens, Config(0, StreamStartState, [], []), StreamStart, Before(1, true), events, Config(|tokens|, EndState, [], []));
    EventsRegroup([StreamStart], DocEvents(DocsOf(docs)), [StreamEnd]);
  }

  lemma AtAll(tokens: seq<Token>)
    ensures At(tokens, 0, tokens)
  {
  }

  /** The first document does not start with a document end. */
  lemma FirstDocument(tokens: seq<Token>, h: nat, docs: seq<DocSource>)
    requires GoodDocs(docs, true) && At(tokens, h, SpelledDocs(docs))
    ensures Ended(tokens, h, h)
  {
    hide At, Spelled, Fits, TagsOf;
    AtHead(tokens, h, SpelledDocs(docs));
    if docs != [] {
      var doc, more := docs[0], Times(docs[0].ends, Plainly(DocumentEndToken)) + SpelledDocs(docs[1..]);
      AtSplit(tokens, h, Header(doc), Spelled(doc.root) + more);
      AtSplit(tokens, h + |Header(doc)|, Spelled(doc.root), more);
      assert GoodDoc(doc, true);
      if doc.explicit {
        HeaderRead(tokens, h, doc, true);
      } else {
        NotSingle(doc.root, Root, TagsOf(doc));
        NodeStarts(tokens, h, doc.root, Root, TagsOf(doc));
      }
    }
  }
}
