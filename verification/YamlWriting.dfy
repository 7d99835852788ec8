/** Every tree can be written: one way to write it, and that it is read as that tree. */
module YamlWriting {
  import opened Wrappers
  import opened YamlEvents
  import opened YamlTokens
  import opened YamlDirectives
  import opened YamlSource

  /** The flags of the tree are those its tags and styles imply, and no block collection is inside a flow one. */
  ghost predicate Spellable(t: Tree, flow: bool) {
    match t
    case Leaf(e) =>
      e.Alias? || (e.Scalar?
                   && e.implicit == ((e.tag == [] && e.style.Plain?) || e.tag == [33])
                   && e.quotedImplicit == (e.tag == [] && !e.style.Plain?))
    case Sequence(o, items) =>
      && o.SequenceStart? && o.implicit == (o.tag == [])
      && (o.collectionStyle.Flow? || (o.collectionStyle.Block? && !flow))
      && forall i | 0 <= i < |items| :: Spellable(items[i], flow || o.collectionStyle.Flow?)
    case Mapping(o, items) =>
      && o.MappingStart? && o.implicit == (o.tag == []) && |items| % 2 == 0
      && (o.collectionStyle.Flow? || (o.collectionStyle.Block? && !flow))
      && forall i | 0 <= i < |items| :: Spellable(items[i], flow || o.collectionStyle.Flow?)
  }

  function Written(anchor: Option<Bytes>, tag: Bytes): Properties {
    Properties(anchor, if tag == [] then NoTag else Verbatim(tag), false)
  }

  function FormOf(style: CollectionStyle): Form { if style.Flow? then InFlow(false) else InBlock }

  function SourceOf(t: Tree): Source
    decreases t, 0
  {
    match t
    case Leaf(e) =>
      if e.Alias? then AliasOf(e.anchor) else if e.Scalar? then Text(Written(e.anchorOpt, e.tag), e.value, e.style) else Nothing
    case Sequence(o, items) =>
      if !o.SequenceStart? then Nothing else Items(Written(o.anchorOpt, o.tag), FormOf(o.collectionStyle), SourcesOf(items))
    case Mapping(o, items) =>
      if !o.MappingStart? then Nothing else Pairs(Written(o.anchorOpt, o.tag), FormOf(o.collectionStyle), EntriesOf(items))
  }

  function SourcesOf(ts: seq<Tree>): seq<Source>
    decreases ts, 0
  {
    if ts == [] then [] else [SourceOf(ts[0])] + SourcesOf(ts[1..])
  }

  function EntriesOf(ts: seq<Tree>): seq<Entry>
    decreases ts, 0
  {
    if |ts| < 2 then [] else [Entry(false, SourceOf(ts[0]), true, SourceOf(ts[1]))] + EntriesOf(ts[2..])
  }

  /** A tree written that way stands for itself, wherever it is put. */
  lemma {:induction false} TreeSpelled(t: Tree, at: Place, tags: seq<TagDirective>)
    requires Spellable(t, Flowing(at))
    ensures Fits(SourceOf(t), at, tags) && TreeOf(SourceOf(t), tags) == t && !SourceOf(t).Nothing?
    decreases t, 0
  {
    match t
    case Leaf(e) =>
    case Sequence(o, items) =>
      ItemsSpelled(items, if o.collectionStyle.Flow? then FlowItem else BlockItem, tags);
    case Mapping(o, items) =>
      EntriesSpelled(items, o.collectionStyle.Flow?, tags);
  }

  lemma {:induction false} ItemsSpelled(ts: seq<Tree>, at: Place, tags: seq<TagDirective>)
    requires forall i | 0 <= i < |ts| :: Spellable(ts[i], Flowing(at))
    ensures var xs := SourcesOf(ts);
            && |xs| == |ts| && (forall i :: 0 <= i < |xs| ==> Fits(xs[i], at, tags))
            && TreesOf(xs, tags) == ts
    decreases ts, 0
  {
    hide Fits, Spellable;
    if ts != [] {
      TreeSpelled(ts[0], at, tags);
      ItemsSpelled(ts[1..], at, tags);
      assert SourcesOf(ts)[1..] == SourcesOf(ts[1..]);
    }
  }

  lemma {:induction false} EntriesSpelled(ts: seq<Tree>, flow: bool, tags: seq<TagDirective>)
    requires |ts| % 2 == 0 && forall i | 0 <= i < |ts| :: Spellable(ts[i], flow)
    ensures var es := EntriesOf(ts);
            && (forall i :: 0 <= i < |es| ==>
                  !es[i].lone && EntryFits(es[i], if flow then FlowKey else BlockKey, if flow then FlowValue else BlockValue, tags))
            && EntryTrees(es, tags) == ts
    decreases ts, 0
  {
    hide Fits, Spellable;
    if ts != [] {
      var k, v := if flow then FlowKey else BlockKey, if flow then FlowValue else BlockValue;
      TreeSpelled(ts[0], k, tags);
      TreeSpelled(ts[1], v, tags);
      EntriesSpelled(ts[2..], flow, tags);
      var e := Entry(false, SourceOf(ts[0]), true, SourceOf(ts[1]));
      assert EntriesOf(ts)[1..] == EntriesOf(ts[2..]);
      assert PairTrees(e, tags) == ts[..2];
      assert ts[..2] + ts[2..] == ts;
    }
  }

  //
  // Documents.
  //

  function TagTokensOf(ds: seq<TagDirective>): seq<Token> {
    if ds == [] then [] else [Plainly(TagDirectiveToken).(value := ds[0].handle, prefix := ds[0].prefix)] + TagTokensOf(ds[1..])
  }

  function DirectivesOf(version: Option<(int, int)>, ds: seq<TagDirective>): seq<Token> {
    (if version.Some? then [Plainly(VersionDirectiveToken).(major := 1, minor := 1)] else []) + TagTokensOf(ds)
  }

  function DocSourceOf(d: Document): DocSource {
    DocSource(true, if d.start.DocumentStart? then DirectivesOf(d.start.version, d.start.tagDirectives) else [], SourceOf(d.root),
              if d.end == DocumentEnd(false) then 1 else 0)
  }

  function DocSourcesOf(docs: seq<Document>): seq<DocSource> {
    if docs == [] then [] else [DocSourceOf(docs[0])] + DocSourcesOf(docs[1..])
  }

  ghost predicate SpellableDoc(d: Document) {
    && d.start.DocumentStart? && !d.start.implicit && Distinct(d.start.tagDirectives)
    && (d.start.version.Some? ==> d.start.version.value == (1, 1))
    && Spellable(d.root, false) && d.end.DocumentEnd?
  }

  lemma {:induction false} TagsDeclared(ds: seq<TagDirective>, d: Declarations)
    requires Distinct(d.tags + ds)
    ensures DeclareAll(TagTokensOf(ds), d) == Some(d.(own := d.own + ds, tags := d.tags + ds))
    decreases |ds|
  {
    if ds == [] {
      assert d.own + ds == d.own && d.tags + ds == d.tags;
    } else {
      var d' := d.(own := d.own + [ds[0]], tags := d.tags + [ds[0]]);
      assert !Declared(d.tags, ds[0].handle) by {
        assert forall i | 0 <= i < |d.tags| :: d.tags[i] == (d.tags + ds)[i];
        assert ds[0] == (d.tags + ds)[|d.tags|];
      }
      assert d'.tags + ds[1..] == d.tags + ds && d'.own + ds[1..] == d.own + ds;
      TagsDeclared(ds[1..], d');
      assert TagTokensOf(ds)[1..] == TagTokensOf(ds[1..]);
    }
  }

  lemma DirectivesDeclared(version: Option<(int, int)>, ds: seq<TagDirective>)
    requires Distinct(ds) && (version.Some? ==> version.value == (1, 1))
    ensures DeclareAll(DirectivesOf(version, ds), UNDECLARED) == Some(Declarations(version, ds, ds))
  {
    var d := UNDECLARED.(version := version);
    assert [] + ds == ds;
    TagsDeclared(ds, d);
    var tokens := DirectivesOf(version, ds);
    if version.Some? {
      assert tokens[1..] == TagTokensOf(ds);
    } else {
      assert tokens == TagTokensOf(ds);
    }
  }

  lemma DocSpelled(d: Document, first: bool)
    requires SpellableDoc(d)
    ensures GoodDoc(DocSourceOf(d), first) && DocOf(DocSourceOf(d)) == d
  {
    hide Fits, Spellable, TreeOf, WithDefaults;
    DirectivesDeclared(d.start.version, d.start.tagDirectives);
    TreeSpelled(d.root, Root, TagsOf(DocSourceOf(d)));
  }

  /** Any documents with distinct tag handles, version 1.1 or none, and spellable roots can be written. */
  lemma {:induction false} DocsSpelled(docs: seq<Document>, first: bool)
    requires forall i | 0 <= i < |docs| :: SpellableDoc(docs[i])
    ensures var xs := DocSourcesOf(docs);
            && |xs| == |docs| && GoodDocs(xs, first)
            && (forall i :: 0 <= i < |xs| ==> DeclareAll(xs[i].directives, UNDECLARED).Some?)
            && DocsOf(xs) == docs
    decreases |docs|
  {
    hide SpellableDoc, Fits, TagsOf, DocOf;
    if docs != [] {
      DocSpelled(docs[0], first);
      DocsSpelled(docs[1..], false);
      assert DocSourcesOf(docs)[1..] == DocSourcesOf(docs[1..]);
    }
  }
}
