/**
 YAML events and what it means for a sequence of them to be well nested.

 Two independent definitions are given and proved equivalent:
 - `Run`, a pushdown recogniser that reads one event at a time;
 - `StreamEvents`, the events obtained by flattening a list of document trees.
 The parser, the node builder and the emitter are all stated against them.
 */
module YamlEvents {
  import opened Wrappers

  datatype ScalarStyle = AnyStyle | Plain | SingleQuoted | DoubleQuoted | Literal | Folded

  datatype CollectionStyle = AnyCollectionStyle | Block | Flow

  datatype TagDirective = TagDirective(handle: Bytes, prefix: Bytes)

  /** "!" stands for itself and "!!" for "tag:yaml.org,2002:". */
  const DEFAULT_TAG_DIRECTIVES: seq<TagDirective> :=
    [TagDirective([33], [33]),
     TagDirective([33, 33], [116, 97, 103, 58, 121, 97, 109, 108, 46, 111, 114, 103, 44, 50, 48, 48, 50, 58])]

  datatype Event =
    | StreamStart
    | StreamEnd
    | DocumentStart(version: Option<(int, int)>, tagDirectives: seq<TagDirective>, implicit: bool)
    | DocumentEnd(implicit: bool)
    | Alias(anchor: Bytes)
    | Scalar(anchorOpt: Option<Bytes>, tag: Bytes, value: Bytes, implicit: bool, quotedImplicit: bool, style: ScalarStyle)
    | SequenceStart(anchorOpt: Option<Bytes>, tag: Bytes, implicit: bool, collectionStyle: CollectionStyle)
    | SequenceEnd
    | MappingStart(anchorOpt: Option<Bytes>, tag: Bytes, implicit: bool, collectionStyle: CollectionStyle)
    | MappingEnd

  predicate IsLeaf(e: Event) { e.Alias? || e.Scalar? }

  predicate IsNode(e: Event) { IsLeaf(e) || e.SequenceStart? || e.MappingStart? }

  //
  // The recogniser.
  //

  /** What may come next at one level of nesting. */
  datatype Expect =
    | ExpStream    // STREAM-START
    | ExpDocument  // DOCUMENT-START or STREAM-END
    | ExpRoot      // the root node of a document
    | ExpDocEnd    // DOCUMENT-END
    | ExpItem      // a sequence item or SEQUENCE-END
    | ExpKey       // a mapping key or MAPPING-END
    | ExpValue     // the value of the preceding key

  predicate WantsNode(x: Expect) { x.ExpRoot? || x.ExpItem? || x.ExpKey? || x.ExpValue? }

  /** The nesting levels still open, innermost first. */
  datatype Levels = Closed | Level(top: Expect, below: Levels)

  const START := Level(ExpStream, Closed)

  predicate NodeWanted(ls: Levels) { ls.Level? && WantsNode(ls.top) }

  /** What is open once the innermost level has received a whole node. */
  function AfterNode(ls: Levels): Levels
    requires NodeWanted(ls)
  {
    match ls.top
    case ExpRoot => ls.below
    case ExpItem => ls
    case ExpKey => Level(ExpValue, ls.below)
    case ExpValue => Level(ExpKey, ls.below)
  }

  /** The effect of the first event of a node on the levels left by that node. */
  function Opening(e: Event, ls: Levels): Levels {
    if e.SequenceStart? then Level(ExpItem, ls) else if e.MappingStart? then Level(ExpKey, ls) else ls
  }

  /** One step of the recogniser. */
  function Step(ls: Levels, e: Event): Option<Levels> {
    if ls.Closed? then None
    else if WantsNode(ls.top) && IsNode(e) then Some(Opening(e, AfterNode(ls)))
    else match ls.top
      case ExpStream => if e.StreamStart? then Some(Level(ExpDocument, ls.below)) else None
      case ExpDocument =>
        if e.DocumentStart? then Some(Level(ExpRoot, Level(ExpDocEnd, ls.below)))
        else if e.StreamEnd? then Some(ls.below)
        else None
      case ExpDocEnd => if e.DocumentEnd? then Some(Level(ExpDocument, ls.below)) else None
      case ExpItem => if e.SequenceEnd? then Some(ls.below) else None
      case ExpKey => if e.MappingEnd? then Some(ls.below) else None
      case _ => None
  }

  function Run(ls: Levels, events: seq<Event>): Option<Levels>
    decreases |events|
  {
    if events == [] then Some(ls)
    else match Step(ls, events[0])
      case None => None
      case Some(next) => Run(next, events[1..])
  }

  /** The recogniser composes over concatenation. */
  lemma {:induction false} RunConcat(ls: Levels, xs: seq<Event>, ys: seq<Event>)
    ensures Run(ls, xs + ys) == match Run(ls, xs) case None => None case Some(mid) => Run(mid, ys)
    decreases |xs|
  {
    if xs == [] {
      assert xs + ys == ys;
    } else {
      assert (xs + ys)[1..] == xs[1..] + ys;
      var next := Step(ls, xs[0]);
      if next.Some? { RunConcat(next.value, xs[1..], ys); }
    }
  }

  lemma RunOne(ls: Levels, e: Event)
    ensures Run(ls, [e]) == Step(ls, e)
  {
    var next := Step(ls, e);
    if next.Some? { assert Run(next.value, [e][1..]) == next; }
  }

  lemma RunSnoc(ls: Levels, xs: seq<Event>, e: Event)
    ensures Run(ls, xs + [e]) == match Run(ls, xs) case None => None case Some(mid) => Step(mid, e)
  {
    RunConcat(ls, xs, [e]);
    if Run(ls, xs).Some? { RunOne(Run(ls, xs).value, e); }
  }

  //
  // Trees and their flattening.
  //

  /** A concrete syntax tree; the items of a mapping alternate keys and values. */
  datatype Tree =
    | Leaf(event: Event)
    | Sequence(open: Event, items: seq<Tree>)
    | Mapping(open: Event, items: seq<Tree>)

  ghost predicate WellFormed(t: Tree) {
    match t
    case Leaf(e) => IsLeaf(e)
    case Sequence(o, items) => o.SequenceStart? && forall i | 0 <= i < |items| :: WellFormed(items[i])
    case Mapping(o, items) =>
      o.MappingStart? && |items| % 2 == 0 && forall i | 0 <= i < |items| :: WellFormed(items[i])
  }

  ghost predicate AllWellFormed(ts: seq<Tree>) { forall i | 0 <= i < |ts| :: WellFormed(ts[i]) }

  function Flatten(t: Tree): seq<Event>
    decreases t, 0
  {
    match t
    case Leaf(e) => [e]
    case Sequence(o, items) => [o] + FlattenAll(items) + [SequenceEnd]
    case Mapping(o, items) => [o] + FlattenAll(items) + [MappingEnd]
  }

  function FlattenAll(ts: seq<Tree>): seq<Event>
    decreases ts, 0
  {
    if ts == [] then [] else Flatten(ts[0]) + FlattenAll(ts[1..])
  }

  datatype Document = Document(start: Event, root: Tree, end: Event)

  ghost predicate WellFormedDocs(docs: seq<Document>) {
    forall i | 0 <= i < |docs| ::
      docs[i].start.DocumentStart? && WellFormed(docs[i].root) && docs[i].end.DocumentEnd?
  }

  function DocEvents(docs: seq<Document>): seq<Event> {
    if docs == [] then []
    else [docs[0].start] + Flatten(docs[0].root) + [docs[0].end] + DocEvents(docs[1..])
  }

  /** STREAM-START (DOCUMENT-START node DOCUMENT-END)* STREAM-END. */
  function StreamEvents(docs: seq<Document>): seq<Event> {
    [StreamStart] + DocEvents(docs) + [StreamEnd]
  }

  /** The level left after `n` complete nodes. */
  function AfterNodes(ls: Levels, n: nat): Levels
    requires NodeWanted(ls) && !ls.top.ExpRoot?
  {
    if n % 2 == 0 then ls else AfterNode(ls)
  }

  /** Flattening a node takes the recogniser from "a node is wanted" to just after that node. */
  lemma {:induction false} FlattenRuns(ls: Levels, t: Tree)
    requires NodeWanted(ls) && WellFormed(t)
    ensures Run(ls, Flatten(t)) == Some(AfterNode(ls))
    decreases t, 0
  {
    match t
    case Leaf(e) => RunOne(ls, e);
    case Sequence(o, items) =>
      RunOne(ls, o);
      var inner := Level(ExpItem, AfterNode(ls));
      RunConcat(ls, [o], FlattenAll(items));
      FlattenAllRuns(inner, items);
      RunSnoc(ls, [o] + FlattenAll(items), SequenceEnd);
    case Mapping(o, items) =>
      RunOne(ls, o);
      var inner := Level(ExpKey, AfterNode(ls));
      RunConcat(ls, [o], FlattenAll(items));
      FlattenAllRuns(inner, items);
      RunSnoc(ls, [o] + FlattenAll(items), MappingEnd);
  }

  lemma {:induction false} FlattenAllRuns(ls: Levels, ts: seq<Tree>)
    requires NodeWanted(ls) && !ls.top.ExpRoot? && AllWellFormed(ts)
    ensures Run(ls, FlattenAll(ts)) == Some(AfterNodes(ls, |ts|))
    decreases ts, 0
  {
    if ts != [] {
      FlattenRuns(ls, ts[0]);
      FlattenAllRuns(AfterNode(ls), ts[1..]);
      RunConcat(ls, Flatten(ts[0]), FlattenAll(ts[1..]));
    }
  }

  lemma {:induction false} DocEventsRun(docs: seq<Document>)
    requires WellFormedDocs(docs)
    ensures Run(Level(ExpDocument, Closed), DocEvents(docs)) == Some(Level(ExpDocument, Closed))
  {
    if docs != [] {
      var d, begin := docs[0], Level(ExpDocument, Closed);
      var body := Flatten(d.root);
      RunOne(begin, d.start);
      FlattenRuns(Level(ExpRoot, Level(ExpDocEnd, Closed)), d.root);
      RunConcat(begin, [d.start], body);
      RunSnoc(begin, [d.start] + body, d.end);
      DocEventsRun(docs[1..]);
      RunConcat(begin, [d.start] + body + [d.end], DocEvents(docs[1..]));
    }
  }

  //
  // From the recogniser back to trees.
  //

  /** In a run that closes everything, a node event starts the flattening of a whole tree. */
  lemma {:induction false} SplitNode(ls: Levels, events: seq<Event>) returns (t: Tree, tail: seq<Event>)
    requires NodeWanted(ls) && Run(ls, events) == Some(Closed)
    requires events != [] && IsNode(events[0])
    ensures WellFormed(t) && events == Flatten(t) + tail && |tail| < |events|
    ensures Run(AfterNode(ls), tail) == Some(Closed)
    decreases |events|, 0
  {
    var o := events[0];
    if IsLeaf(o) {
      return Leaf(o), events[1..];
    }
    var items;
    items, tail := SplitItems(Opening(o, AfterNode(ls)), events[1..]);
    var close := if o.SequenceStart? then SequenceEnd else MappingEnd;
    t := if o.SequenceStart? then Sequence(o, items) else Mapping(o, items);
    assert Flatten(t) == [o] + FlattenAll(items) + [close];
    assert events == [o] + events[1..];
  }

  /** The items up to the event that closes the innermost collection. */
  lemma {:induction false} SplitItems(ls: Levels, events: seq<Event>) returns (items: seq<Tree>, tail: seq<Event>)
    requires NodeWanted(ls) && !ls.top.ExpRoot? && Run(ls, events) == Some(Closed)
    ensures AllWellFormed(items)
    ensures ls.top.ExpKey? ==> |items| % 2 == 0
    ensures ls.top.ExpValue? ==> |items| % 2 == 1
    ensures events == FlattenAll(items) + [if ls.top.ExpItem? then SequenceEnd else MappingEnd] + tail
    ensures Run(ls.below, tail) == Some(Closed) && |tail| < |events|
    decreases |events|, 1
  {
    assert events != [];
    if IsNode(events[0]) {
      var t, mid := SplitNode(ls, events);
      var more;
      more, tail := SplitItems(AfterNode(ls), mid);
      items := [t] + more;
      assert FlattenAll(items) == Flatten(t) + FlattenAll(more) by { assert items[1..] == more; }
      hide *;
    } else {
      items, tail := [], events[1..];
    }
  }

  lemma {:induction false} SplitDocs(events: seq<Event>) returns (docs: seq<Document>)
    requires Run(Level(ExpDocument, Closed), events) == Some(Closed)
    ensures WellFormedDocs(docs) && events == DocEvents(docs) + [StreamEnd]
    decreases |events|
  {
    assert events != [];
    var tail := events[1..];
    if events[0].StreamEnd? {
      assert Run(Closed, tail) == Some(Closed);
      return [];
    }
    var ls := Level(ExpRoot, Level(ExpDocEnd, Closed));
    assert Run(ls, tail) == Some(Closed) && tail != [] && IsNode(tail[0]);
    var root, mid := SplitNode(ls, tail);
    var more := SplitDocs(mid[1..]);
    docs := [Document(events[0], root, mid[0])] + more;
    assert events == [events[0]] + Flatten(root) + [mid[0]] + mid[1..];
    assert docs[1..] == more;
  }

  /** The recogniser accepts exactly the flattened document lists. */
  lemma AcceptedIffStream(events: seq<Event>)
    ensures Run(START, events) == Some(Closed) <==>
            exists docs :: WellFormedDocs(docs) && events == StreamEvents(docs)
  {
    if Run(START, events) == Some(Closed) {
      var docs := SplitDocs(events[1..]);
      assert events == [StreamStart] + events[1..];
      assert events == StreamEvents(docs);
    }
    forall docs | WellFormedDocs(docs) && events == StreamEvents(docs)
      ensures Run(START, events) == Some(Closed)
    {
      RunOne(START, StreamStart);
      DocEventsRun(docs);
      RunConcat(START, [StreamStart], DocEvents(docs));
      RunSnoc(START, [StreamStart] + DocEvents(docs), StreamEnd);
    }
  }

  //
  // Prefixes.
  //

  const EMPTY_SCALAR := Scalar(None, [], [], true, false, Plain)

  /** Events that close one level. */
  function Closing(x: Expect): seq<Event> {
    match x
    case ExpStream => [StreamStart, StreamEnd]
    case ExpDocument => [StreamEnd]
    case ExpRoot => [EMPTY_SCALAR]
    case ExpDocEnd => [DocumentEnd(true), StreamEnd]
    case ExpItem => [SequenceEnd]
    case ExpKey => [MappingEnd]
    case ExpValue => [EMPTY_SCALAR, MappingEnd]
  }

  function ClosingAll(ls: Levels): seq<Event> {
    if ls.Closed? then [] else Closing(ls.top) + ClosingAll(ls.below)
  }

  lemma {:induction false} ClosingAllRuns(ls: Levels)
    ensures Run(ls, ClosingAll(ls)) == Some(Closed)
  {
    if ls.Level? {
      var c := Closing(ls.top);
      RunOne(ls, c[0]);
      if |c| == 2 {
        assert c == [c[0]] + [c[1]];
        RunSnoc(ls, [c[0]], c[1]);
      }
      assert Run(ls, c) == Some(ls.below);
      ClosingAllRuns(ls.below);
      RunConcat(ls, c, ClosingAll(ls.below));
    }
  }

  /** A sequence the recogniser has not refused is exactly a prefix of some well-formed stream. */
  lemma AcceptedIffPrefix(events: seq<Event>)
    ensures Run(START, events).Some? <==>
            exists docs :: WellFormedDocs(docs) && events <= StreamEvents(docs)
  {
    var r := Run(START, events);
    if r.Some? {
      var whole := events + ClosingAll(r.value);
      ClosingAllRuns(r.value);
      RunConcat(START, events, ClosingAll(r.value));
      AcceptedIffStream(whole);
      var docs :| WellFormedDocs(docs) && whole == StreamEvents(docs);
      assert events <= StreamEvents(docs);
    }
    forall docs | WellFormedDocs(docs) && events <= StreamEvents(docs)
      ensures r.Some?
    {
      var whole := StreamEvents(docs);
      AcceptedIffStream(whole);
      assert whole == events + whole[|events|..];
      RunConcat(START, events, whole[|events|..]);
    }
  }

  //
  // The end of the stream.
  //

  /** Every node level rests on a document, and a document level on nothing. */
  ghost predicate Grounded(ls: Levels) {
    ls.Level? ==> if WantsNode(ls.top) then ls.below.Level? && Grounded(ls.below) else ls.below.Closed?
  }

  lemma {:induction false} RunGrounded(ls: Levels, events: seq<Event>)
    requires Grounded(ls) && Run(ls, events).Some?
    ensures Grounded(Run(ls, events).value)
    decreases |events|
  {
    if events != [] { RunGrounded(Step(ls, events[0]).value, events[1..]); }
  }

  /** Only STREAM-END closes everything. */
  lemma ClosedIffStreamEnd(events: seq<Event>, e: Event)
    requires Run(START, events + [e]).Some?
    ensures Run(START, events + [e]) == Some(Closed) <==> e.StreamEnd?
  {
    RunSnoc(START, events, e);
    RunGrounded(START, events);
  }
}
