/**
 The concrete syntax of YAML as tokens: every way a node, its properties and a document can be written, the
 tokens of each, and the tree it stands for.
 */
module YamlSource {
  import opened Wrappers
  import opened YamlEvents
  import opened YamlTokens
  import opened YamlDirectives

  datatype TagSpelling = NoTag | Verbatim(tag: Bytes) | Shorthand(handle: Bytes, suffix: Bytes)

  datatype Properties = Properties(anchor: Option<Bytes>, tag: TagSpelling, tagFirst: bool)

  /** How a collection is delimited; a flow collection may end with a comma. */
  datatype Form = InFlow(comma: bool) | InBlock | Indentless

  datatype Source =
    | Nothing                                                     // an empty scalar without a token
    | AliasOf(name: Bytes)
    | Bare(props: Properties)                                     // an empty scalar that has properties
    | Text(props: Properties, value: Bytes, style: ScalarStyle)
    | Items(props: Properties, form: Form, items: seq<Source>)
    | Pairs(props: Properties, form: Form, entries: seq<Entry>)
    | Single(entry: Entry)                                        // one pair as an item of a flow sequence

  /** A pair; `lone` without a KEY token, `marked` with a VALUE token. */
  datatype Entry = Entry(lone: bool, key: Source, marked: bool, value: Source)

  //
  // Tokens.
  //

  function Plainly(kind: TokenKind): Token {
    Token(kind, Mark(0, 0, 0), [], [], [], 0, 0, AnyStyle)
  }

  function AnchorTokens(anchor: Option<Bytes>): seq<Token> {
    if anchor.Some? then [Plainly(AnchorToken).(value := anchor.value)] else []
  }

  function TagTokens(tag: TagSpelling): seq<Token> {
    match tag
    case NoTag => []
    case Verbatim(t) => [Plainly(TagToken).(suffix := t)]
    case Shorthand(handle, suffix) => [Plainly(TagToken).(value := handle, suffix := suffix)]
  }

  function PropertyTokens(p: Properties): seq<Token> {
    if p.tagFirst then TagTokens(p.tag) + AnchorTokens(p.anchor) else AnchorTokens(p.anchor) + TagTokens(p.tag)
  }

  function Spelled(x: Source): seq<Token>
    decreases x, 0
  {
    match x
    case Nothing => []
    case AliasOf(name) => [Plainly(AliasToken).(value := name)]
    case Bare(p) => PropertyTokens(p)
    case Text(p, value, style) => PropertyTokens(p) + [Plainly(ScalarToken).(value := value, style := style)]
    case Items(p, form, items) =>
      PropertyTokens(p)
      + (match form
         case InFlow(comma) => [Plainly(FlowSequenceStartToken)] + FlowItems(items, true, comma)
         case InBlock => [Plainly(BlockSequenceStartToken)] + BlockItems(items, true)
         case Indentless => BlockItems(items, false))
    case Pairs(p, form, entries) =>
      PropertyTokens(p)
      + (match form
         case InFlow(comma) => [Plainly(FlowMappingStartToken)] + FlowEntries(entries, true, comma)
         case _ => [Plainly(BlockMappingStartToken)] + BlockEntries(entries))
    case Single(e) => EntryTokens(e)
  }

  /** The end of a flow collection, behind a comma or not. */
  function FlowEnd(comma: bool, end: TokenKind): seq<Token> {
    (if comma then [Plainly(FlowEntryToken)] else []) + [Plainly(end)]
  }

  /** The comma in front of an entry that is not the first. */
  function Separator(first: bool): seq<Token> {
    if first then [] else [Plainly(FlowEntryToken)]
  }

  function FlowItems(xs: seq<Source>, first: bool, comma: bool): seq<Token>
    decreases xs, 0
  {
    if xs == [] then FlowEnd(comma, FlowSequenceEndToken)
    else Separator(first) + (Spelled(xs[0]) + FlowItems(xs[1..], false, comma))
  }

  function BlockItems(xs: seq<Source>, closed: bool): seq<Token>
    decreases xs, 0
  {
    if xs == [] then if closed then [Plainly(BlockEndToken)] else []
    else [Plainly(BlockEntryToken)] + (Spelled(xs[0]) + BlockItems(xs[1..], closed))
  }

  function ValueTokens(e: Entry): seq<Token>
    decreases e, 0
  {
    if e.marked then [Plainly(ValueToken)] + Spelled(e.value) else []
  }

  function EntryTokens(e: Entry): seq<Token>
    decreases e, 1
  {
    (if e.lone then [] else [Plainly(KeyToken)]) + (Spelled(e.key) + ValueTokens(e))
  }

  function FlowEntries(es: seq<Entry>, first: bool, comma: bool): seq<Token>
    decreases es, 0
  {
    if es == [] then FlowEnd(comma, FlowMappingEndToken)
    else Separator(first) + (EntryTokens(es[0]) + FlowEntries(es[1..], false, comma))
  }

  function BlockEntries(es: seq<Entry>): seq<Token>
    decreases es, 0
  {
    if es == [] then [Plainly(BlockEndToken)] else EntryTokens(es[0]) + BlockEntries(es[1..])
  }

  //
  // Meaning.
  //

  /** A shorthand stands for the prefix its handle was first declared with, then the suffix. */
  ghost function TagOf(p: Properties, tags: seq<TagDirective>): Bytes {
    match p.tag
    case NoTag => []
    case Verbatim(t) => t
    case Shorthand(handle, suffix) =>
      if Declared(tags, handle) then
        FirstExists(tags, handle, 0);
        var i: nat :| FirstWith(tags, handle, i);
        tags[i].prefix + suffix
      else []
  }

  function StyleOf(form: Form): CollectionStyle {
    if form.InFlow? then Flow else Block
  }

  ghost function TextOf(p: Properties, tags: seq<TagDirective>, value: Bytes, style: ScalarStyle): Event {
    var tag := TagOf(p, tags);
    Scalar(p.anchor, tag, value, (tag == [] && style.Plain?) || tag == [33], tag == [] && !style.Plain?, style)
  }

  ghost function OpenItems(p: Properties, tags: seq<TagDirective>, form: Form): Event {
    SequenceStart(p.anchor, TagOf(p, tags), TagOf(p, tags) == [], StyleOf(form))
  }

  ghost function OpenPairs(p: Properties, tags: seq<TagDirective>, form: Form): Event {
    MappingStart(p.anchor, TagOf(p, tags), TagOf(p, tags) == [], StyleOf(form))
  }

  const SINGLE_START := MappingStart(None, [], true, Flow)

  /** The tree that is written. */
  ghost function TreeOf(x: Source, tags: seq<TagDirective>): Tree
    decreases x, 0
  {
    match x
    case Nothing => Leaf(EMPTY_SCALAR)
    case AliasOf(name) => Leaf(Alias(name))
    case Bare(p) => Leaf(Scalar(p.anchor, TagOf(p, tags), [], TagOf(p, tags) == [], false, Plain))
    case Text(p, value, style) => Leaf(TextOf(p, tags, value, style))
    case Items(p, form, items) => Sequence(OpenItems(p, tags, form), TreesOf(items, tags))
    case Pairs(p, form, entries) => Mapping(OpenPairs(p, tags, form), EntryTrees(entries, tags))
    case Single(e) => Mapping(SINGLE_START, PairTrees(e, tags))
  }

  ghost function TreesOf(xs: seq<Source>, tags: seq<TagDirective>): seq<Tree>
    decreases xs, 0
  {
    if xs == [] then [] else [TreeOf(xs[0], tags)] + TreesOf(xs[1..], tags)
  }

  ghost function PairTrees(e: Entry, tags: seq<TagDirective>): seq<Tree>
    decreases e, 0
  {
    [TreeOf(e.key, tags), TreeOf(e.value, tags)]
  }

  ghost function EntryTrees(es: seq<Entry>, tags: seq<TagDirective>): seq<Tree>
    decreases es, 0
  {
    if es == [] then [] else PairTrees(es[0], tags) + EntryTrees(es[1..], tags)
  }

  /** The events of that tree. */
  ghost function Events(x: Source, tags: seq<TagDirective>): seq<Event> {
    Flatten(TreeOf(x, tags))
  }

  ghost function ItemEvents(xs: seq<Source>, tags: seq<TagDirective>): seq<Event> {
    FlattenAll(TreesOf(xs, tags))
  }

  ghost function EntryEvents(es: seq<Entry>, tags: seq<TagDirective>): seq<Event> {
    FlattenAll(EntryTrees(es, tags))
  }

  lemma ItemEventsCons(xs: seq<Source>, tags: seq<TagDirective>)
    requires xs != []
    ensures ItemEvents(xs, tags) == Events(xs[0], tags) + ItemEvents(xs[1..], tags)
  {
    hide Flatten, TreeOf;
    assert TreesOf(xs, tags)[1..] == TreesOf(xs[1..], tags);
  }

  lemma FlattenTwo(a: Tree, b: Tree, ts: seq<Tree>)
    ensures FlattenAll([a, b] + ts) == Flatten(a) + (Flatten(b) + FlattenAll(ts))
  {
    hide Flatten;
    var all := [a, b] + ts;
    assert all[1..] == [b] + ts && ([b] + ts)[1..] == ts;
  }

  lemma NoEntryEvents(tags: seq<TagDirective>)
    ensures EntryEvents([], tags) == []
  {
  }

  lemma EntryEventsCons(es: seq<Entry>, tags: seq<TagDirective>)
    requires es != []
    ensures EntryEvents(es, tags) == Events(es[0].key, tags) + (Events(es[0].value, tags) + EntryEvents(es[1..], tags))
  {
    hide Flatten;
    var k, v, rest := TreeOf(es[0].key, tags), TreeOf(es[0].value, tags), EntryTrees(es[1..], tags);
    assert PairTrees(es[0], tags) == [k, v];
    assert EntryTrees(es, tags) == [k, v] + rest;
    FlattenTwo(k, v, rest);
  }

  lemma SingleEvents(e: Entry, tags: seq<TagDirective>)
    ensures Events(Single(e), tags) == [SINGLE_START] + (Events(e.key, tags) + (Events(e.value, tags) + [MappingEnd]))
  {
    var k, v := TreeOf(e.key, tags), TreeOf(e.value, tags);
    assert TreeOf(Single(e), tags) == Mapping(SINGLE_START, [k, v]);
    assert [k, v] + [] == [k, v];
    FlattenTwo(k, v, []);
    hide TreeOf;
    assert Flatten(Mapping(SINGLE_START, [k, v])) == [SINGLE_START] + FlattenAll([k, v]) + [MappingEnd];
    hide Flatten;
  }

  //
  // Where a source may stand.
  //

  /** The places of a node, by what the parser does there. */
  datatype Place =
    | Root
    | BlockItem | IndentlessItem | BlockKey | BlockValue
    | FlowItem | FlowKey | LoneKey | FlowValue
    | SingleKey | SingleValue

  predicate Flowing(at: Place) {
    at.FlowItem? || at.FlowKey? || at.LoneKey? || at.FlowValue? || at.SingleKey? || at.SingleValue?
  }

  predicate TakesIndentless(at: Place) { at.BlockKey? || at.BlockValue? }

  /** No token at all stands for an empty scalar, except where the parser wants a node. */
  predicate MayBeNothing(at: Place) { !at.FlowItem? && !at.LoneKey? && !at.SingleKey? }

  /** The handle of the tag is declared, and the tag it gives is not empty. */
  ghost predicate Resolved(p: Properties, tags: seq<TagDirective>) {
    p.tag.Shorthand? ==> p.tag.handle != [] && TagOf(p, tags) != []
  }

  ghost predicate Fits(x: Source, at: Place, tags: seq<TagDirective>)
    decreases x, 0
  {
    match x
    case Nothing => MayBeNothing(at)
    case AliasOf(_) => true
    case Bare(p) => Resolved(p, tags) && ((p.anchor.Some? && p.anchor.value != []) || TagOf(p, tags) != [])
    case Text(p, _, _) => Resolved(p, tags)
    case Items(p, form, items) =>
      Resolved(p, tags) &&
      (match form
       case InFlow(comma) => (comma ==> items != []) && forall i :: 0 <= i < |items| ==> Fits(items[i], FlowItem, tags)
       case InBlock => !Flowing(at) && forall i :: 0 <= i < |items| ==> Fits(items[i], BlockItem, tags)
       case Indentless =>
         TakesIndentless(at) && items != [] && forall i :: 0 <= i < |items| ==> Fits(items[i], IndentlessItem, tags))
    case Pairs(p, form, entries) =>
      Resolved(p, tags) &&
      (match form
       case InFlow(comma) =>
         (comma ==> entries != [])
         && forall i :: 0 <= i < |entries| ==> EntryFits(entries[i], if entries[i].lone then LoneKey else FlowKey, FlowValue, tags)
       case InBlock =>
         !Flowing(at) && forall i :: 0 <= i < |entries| ==> !entries[i].lone && EntryFits(entries[i], BlockKey, BlockValue, tags)
       case Indentless => false)
    case Single(e) => at.FlowItem? && !e.lone && EntryFits(e, SingleKey, SingleValue, tags)
  }

  ghost predicate EntryFits(e: Entry, k: Place, v: Place, tags: seq<TagDirective>)
    decreases e, 0
  {
    && Fits(e.key, k, tags)
    && (if e.marked then !e.lone && Fits(e.value, v, tags) else e.value.Nothing?)
  }

  //
  // Documents.
  //

  /** A document; only the first may do without a DOCUMENT-START token. */
  datatype DocSource = DocSource(explicit: bool, directives: seq<Token>, root: Source, ends: nat)

  /** What a list of directives declares, if they are accepted. */
  function DeclareAll(ds: seq<Token>, d: Declarations): Option<Declarations> {
    if ds == [] then Some(d)
    else match Declare(ds[0], d) case None => None case Some(d') => DeclareAll(ds[1..], d')
  }

  const UNDECLARED := Declarations(None, [], [])

  function Heading(doc: DocSource): Declarations
    requires DeclareAll(doc.directives, UNDECLARED).Some?
  {
    DeclareAll(doc.directives, UNDECLARED).value
  }

  function TagsOf(doc: DocSource): seq<TagDirective>
    requires DeclareAll(doc.directives, UNDECLARED).Some?
  {
    WithDefaults(Heading(doc).tags)
  }

  ghost predicate GoodDoc(doc: DocSource, first: bool) {
    && DeclareAll(doc.directives, UNDECLARED).Some?
    && Fits(doc.root, Root, TagsOf(doc))
    && (!doc.explicit ==> first && doc.directives == [] && !doc.root.Nothing?)
  }

  ghost predicate GoodDocs(docs: seq<DocSource>, first: bool) {
    forall i :: 0 <= i < |docs| ==> GoodDoc(docs[i], first && i == 0)
  }

  function Times(n: nat, t: Token): seq<Token> { if n == 0 then [] else [t] + Times(n - 1, t) }

  function Header(doc: DocSource): seq<Token> {
    if doc.explicit then doc.directives + [Plainly(DocumentStartToken)] else []
  }

  function SpelledDocs(docs: seq<DocSource>): seq<Token> {
    if docs == [] then [Plainly(StreamEndToken)]
    else Header(docs[0]) + (Spelled(docs[0].root) + (Times(docs[0].ends, Plainly(DocumentEndToken)) + SpelledDocs(docs[1..])))
  }

  function SpelledStream(docs: seq<DocSource>): seq<Token> {
    [Plainly(StreamStartToken)] + SpelledDocs(docs)
  }

  ghost function DocOf(doc: DocSource): Document
    requires DeclareAll(doc.directives, UNDECLARED).Some?
  {
    Document(DocumentStart(Heading(doc).version, Heading(doc).own, false), TreeOf(doc.root, TagsOf(doc)), DocumentEnd(doc.ends == 0))
  }

  ghost function DocsOf(docs: seq<DocSource>): seq<Document>
    requires forall i :: 0 <= i < |docs| ==> DeclareAll(docs[i].directives, UNDECLARED).Some?
  {
    if docs == [] then [] else [DocOf(docs[0])] + DocsOf(docs[1..])
  }
}
