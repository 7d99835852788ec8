/**
 The node builder: turns the parser's events into a tree and a table of anchors.

 The source's panics on unexpected events are the branches marked `assert false`; every other failure
 comes from the parser below.
 */
module YamlNodes {
  import opened Wrappers
  import opened YamlEvents
  import opened YamlParser

  /** Only scalars keep a tag; the children of a mapping alternate keys and values. */
  datatype Node =
    | ScalarNode(tag: Bytes, value: Bytes, implicit: bool)
    | AliasNode(name: Bytes)
    | SequenceNode(children: seq<Node>)
    | MappingNode(children: seq<Node>)

  datatype DocumentNode = DocumentNode(root: Node, anchors: map<Bytes, Node>)

  //
  // What the tree of a run of events means.
  //

  function NodeOf(t: Tree): Node
    decreases t, 0
  {
    match t
    case Leaf(e) =>
      if e.Alias? then AliasNode(e.anchor)
      else if e.Scalar? then ScalarNode(e.tag, e.value, e.implicit)
      else SequenceNode([])
    case Sequence(_, items) => SequenceNode(NodesOf(items))
    case Mapping(_, items) => MappingNode(NodesOf(items))
  }

  function NodesOf(ts: seq<Tree>): seq<Node>
    decreases ts, 0
  {
    if ts == [] then [] else [NodeOf(ts[0])] + NodesOf(ts[1..])
  }

  function AnchorOf(e: Event): Option<Bytes> {
    if e.Scalar? || e.SequenceStart? || e.MappingStart? then e.anchorOpt else None
  }

  function Own(e: Event, n: Node): seq<(Bytes, Node)> {
    match AnchorOf(e) case None => [] case Some(a) => [(a, n)]
  }

  /** The anchored nodes in the order their first events occur. */
  function Anchored(t: Tree): seq<(Bytes, Node)>
    decreases t, 0
  {
    match t
    case Leaf(e) => Own(e, NodeOf(t))
    case Sequence(o, items) => Own(o, NodeOf(t)) + AnchoredAll(items)
    case Mapping(o, items) => Own(o, NodeOf(t)) + AnchoredAll(items)
  }

  function AnchoredAll(ts: seq<Tree>): seq<(Bytes, Node)>
    decreases ts, 0
  {
    if ts == [] then [] else Anchored(ts[0]) + AnchoredAll(ts[1..])
  }

  /** Enter bindings in order: a later binding of a name hides an earlier one. */
  function Bind(m: map<Bytes, Node>, bs: seq<(Bytes, Node)>): map<Bytes, Node>
    decreases |bs|
  {
    if bs == [] then m else Bind(m[bs[0].0 := bs[0].1], bs[1..])
  }

  lemma {:induction false} BindConcat(m: map<Bytes, Node>, xs: seq<(Bytes, Node)>, ys: seq<(Bytes, Node)>)
    ensures Bind(m, xs + ys) == Bind(Bind(m, xs), ys)
    decreases |xs|
  {
    if xs == [] {
      assert xs + ys == ys;
    } else {
      assert (xs + ys)[1..] == xs[1..] + ys;
      BindConcat(m[xs[0].0 := xs[0].1], xs[1..], ys);
    }
  }

  /** Entering `a` before some bindings is entering it afterwards unless one of them bound it. */
  lemma {:induction false} BindLate(m: map<Bytes, Node>, a: Bytes, n: Node, bs: seq<(Bytes, Node)>)
    ensures var late := Bind(m - {a}, bs);
            Bind(m[a := n], bs) == if a in late then late else late[a := n]
    decreases |bs|
  {
    if bs == [] {
      assert (m - {a})[a := n] == m[a := n];
    } else {
      var (b, k) := bs[0];
      if b == a {
        assert (m - {a})[b := k] == m[a := n][b := k];
        BindKeeps((m - {a})[b := k], bs[1..], a);
      } else {
        assert (m - {a})[b := k] == m[b := k] - {a};
        assert m[a := n][b := k] == m[b := k][a := n];
        BindLate(m[b := k], a, n, bs[1..]);
      }
    }
  }

  lemma {:induction false} BindKeeps(m: map<Bytes, Node>, bs: seq<(Bytes, Node)>, a: Bytes)
    requires a in m
    ensures a in Bind(m, bs)
    decreases |bs|
  {
    if bs != [] { BindKeeps(m[bs[0].0 := bs[0].1], bs[1..], a); }
  }

  lemma {:induction false} FlattenAllSnoc(ts: seq<Tree>, t: Tree)
    ensures FlattenAll(ts + [t]) == FlattenAll(ts) + Flatten(t)
    ensures NodesOf(ts + [t]) == NodesOf(ts) + [NodeOf(t)]
    ensures AnchoredAll(ts + [t]) == AnchoredAll(ts) + Anchored(t)
    decreases |ts|
  {
    if ts == [] {
      assert ts + [t] == [t];
    } else {
      assert (ts + [t])[1..] == ts[1..] + [t];
      FlattenAllSnoc(ts[1..], t);
    }
  }

  /** Nodes correspond to trees one by one. */
  lemma {:induction false} NodesAt(ts: seq<Tree>)
    ensures |NodesOf(ts)| == |ts| && forall i | 0 <= i < |ts| :: NodesOf(ts)[i] == NodeOf(ts[i])
    decreases |ts|
  {
    if ts != [] { NodesAt(ts[1..]); }
  }

  /** A name stands for the last node it is put on. */
  lemma {:induction false} LastAnchorWins(m: map<Bytes, Node>, bs: seq<(Bytes, Node)>, a: Bytes, i: nat)
    ensures i < |bs| && bs[i].0 == a && (forall j | i < j < |bs| :: bs[j].0 != a) ==> a in Bind(m, bs) && Bind(m, bs)[a] == bs[i].1
    ensures (forall j | 0 <= j < |bs| :: bs[j].0 != a) ==> (a in Bind(m, bs) <==> a in m) && (a in m ==> Bind(m, bs)[a] == m[a])
    decreases |bs|
  {
    if bs != [] {
      var rest := bs[1..];
      LastAnchorWins(m[bs[0].0 := bs[0].1], rest, a, if i > 0 then i - 1 else 0);
      assert forall j | 0 <= j < |rest| :: rest[j] == bs[j + 1];
      if i == 0 && bs[0].0 == a && (forall j | 0 < j < |bs| :: bs[j].0 != a) {
        forall j | 0 <= j < |rest| ensures rest[j].0 != a { assert rest[j] == bs[j + 1]; }
      }
    }
  }

  /** The anchors in a run of events. */
  function AnchorsIn(events: seq<Event>): seq<Bytes> {
    if events == [] then []
    else (match AnchorOf(events[0]) case None => [] case Some(a) => [a]) + AnchorsIn(events[1..])
  }

  function Names(bs: seq<(Bytes, Node)>): seq<Bytes> {
    seq(|bs|, i requires 0 <= i < |bs| => bs[i].0)
  }

  lemma {:induction false} AnchorsConcat(xs: seq<Event>, ys: seq<Event>)
    ensures AnchorsIn(xs + ys) == AnchorsIn(xs) + AnchorsIn(ys)
    decreases |xs|
  {
    if xs == [] {
      assert xs + ys == ys;
    } else {
      assert (xs + ys)[1..] == xs[1..] + ys;
      AnchorsConcat(xs[1..], ys);
    }
  }

  lemma NamesConcat(xs: seq<(Bytes, Node)>, ys: seq<(Bytes, Node)>)
    ensures Names(xs + ys) == Names(xs) + Names(ys)
  {
  }

  /** Names are entered in the order in which the events that carry them occur. */
  lemma {:induction false} AnchoredInOrder(t: Tree)
    requires WellFormed(t)
    ensures Names(Anchored(t)) == AnchorsIn(Flatten(t))
    decreases t, 0
  {
    match t {
      case Leaf(e) => assert [e][1..] == [];
      case Sequence(o, items) => InsideInOrder(o, NodeOf(t), items, SequenceEnd);
      case Mapping(o, items) => InsideInOrder(o, NodeOf(t), items, MappingEnd);
    }
  }

  lemma {:induction false} InsideInOrder(o: Event, n: Node, items: seq<Tree>, end: Event)
    requires AllWellFormed(items) && AnchorOf(end).None?
    ensures Names(Own(o, n) + AnchoredAll(items)) == AnchorsIn([o] + FlattenAll(items) + [end])
    decreases items, 1
  {
    AllInOrder(items);
    NamesConcat(Own(o, n), AnchoredAll(items));
    AnchorsConcat([o] + FlattenAll(items), [end]);
    AnchorsConcat([o], FlattenAll(items));
    assert [o][1..] == [] && [end][1..] == [];
    assert AnchorsIn([end]) == [];
  }

  lemma {:induction false} AllInOrder(ts: seq<Tree>)
    requires AllWellFormed(ts)
    ensures Names(AnchoredAll(ts)) == AnchorsIn(FlattenAll(ts))
    decreases ts, 0
  {
    if ts != [] {
      AnchoredInOrder(ts[0]);
      AllInOrder(ts[1..]);
      NamesConcat(Anchored(ts[0]), AnchoredAll(ts[1..]));
      AnchorsConcat(Flatten(ts[0]), FlattenAll(ts[1..]));
    }
  }

  //
  // What the builder achieves, between two snapshots of its fields.
  //

  /** `done` are the events already turned into nodes, `at` the levels open after them. */
  datatype Progress = Progress(done: seq<Event>, at: Levels, anchors: map<Bytes, Node>)

  ghost predicate BuiltNode(p: Progress, p': Progress, n: Node, t: Tree) {
    && WellFormed(t) && n == NodeOf(t)
    && NodeWanted(p.at) && p'.at == AfterNode(p.at)
    && p'.done == p.done + Flatten(t)
    && p'.anchors == Bind(p.anchors, Anchored(t))
  }

  ghost predicate BuiltItems(p: Progress, p': Progress, children: seq<Node>, items: seq<Tree>) {
    && AllWellFormed(items) && children == NodesOf(items)
    && NodeWanted(p.at) && !p.at.top.ExpRoot? && p'.at == AfterNodes(p.at, |items|)
    && p'.done == p.done + FlattenAll(items)
    && p'.anchors == Bind(p.anchors, AnchoredAll(items))
  }

  lemma NoItems(p: Progress)
    requires NodeWanted(p.at) && !p.at.top.ExpRoot?
    ensures BuiltItems(p, p, [], [])
  {
  }

  lemma OneMore(p: Progress, m: Progress, p': Progress, children: seq<Node>, items: seq<Tree>, n: Node, t: Tree)
    requires BuiltItems(p, m, children, items) && BuiltNode(m, p', n, t)
    ensures BuiltItems(p, p', children + [n], items + [t])
  {
    FlattenAllSnoc(items, t);
    BindConcat(p.anchors, AnchoredAll(items), Anchored(t));
  }

  /** The anchor of a collection is entered after its items, unless one of them took the name. */
  function EnterLate(own: Option<Bytes>, n: Node, m: map<Bytes, Node>): map<Bytes, Node> {
    if own.Some? && own.value !in m then m[own.value := n] else m
  }

  lemma WholeCollection(p: Progress, m: Progress, m': Progress, open: Event, close: Event, children: seq<Node>, items: seq<Tree>,
                        p': Progress, n: Node, t: Tree)
    requires open.SequenceStart? || open.MappingStart?
    requires NodeWanted(p.at) && m.at == Opening(open, AfterNode(p.at)) && m.done == p.done + [open]
    requires m.anchors == if open.anchorOpt.Some? then p.anchors - {open.anchorOpt.value} else p.anchors
    requires BuiltItems(m, m', children, items)
    requires p'.done == m'.done + [close] && Step(m'.at, close) == Some(p'.at)
    requires p'.anchors == EnterLate(open.anchorOpt, n, m'.anchors)
    requires open.SequenceStart? ==> close.SequenceEnd? && n == SequenceNode(children) && t == Sequence(open, items)
    requires open.MappingStart? ==> close.MappingEnd? && n == MappingNode(children) && t == Mapping(open, items)
    ensures BuiltNode(p, p', n, t)
  {
    BindConcat(p.anchors, Own(open, n), AnchoredAll(items));
    match open.anchorOpt {
      case None => assert [] + AnchoredAll(items) == AnchoredAll(items);
      case Some(a) =>
        BindLate(p.anchors, a, n, AnchoredAll(items));
        assert Bind(p.anchors, [(a, n)]) == p.anchors[a := n];
    }
    assert p'.done == p.done + ([open] + FlattenAll(items) + [close]);
  }

  lemma FirstEvent(e: Event)
    ensures Run(START, []) == Some(START)
    ensures Run(START, [e]).Some? ==> Step(START, e).Some? && e.StreamStart?
  {
    RunOne(START, e);
  }

  //
  // The builder.
  //

  class Builder {
    const parser: Parser
    var event: Event
    var anchors: map<Bytes, Node>
    ghost var done: seq<Event>
    ghost var at: Levels

    ghost function View(): Progress
      reads this
    {
      Progress(done, at, anchors)
    }

    ghost predicate Valid()
      reads this, parser
    {
      && parser.Valid() && parser.error.None? && Left() >= 0
      && parser.emitted == done + [event]
      && Run(START, done) == Some(at)
      && Step(at, event).Some?
    }

    /** Bounds the number of events still to come. */
    ghost function Left(): int
      reads this, parser
    {
      Measure(parser.tokens, parser.View())
    }

    constructor (parser: Parser)
      ensures this.parser == parser && View() == Progress([], START, map[])
    {
      this.parser := parser;
      anchors := map[];
      event, done, at := StreamEnd, [], START;
    }

    method First() returns (ok: bool)
      requires parser.Valid() && parser.error.None? && parser.emitted == [] && !parser.state.EndState?
      requires done == [] && at == START
      modifies this`event, parser
      ensures parser.Valid() && (ok <==> parser.error.None?)
      ensures ok ==> Valid() && event.StreamStart?
    {
      hide Measure, Parser.Valid, Run, Step;
      var r := parser.Parse();
      ok := r.Got?;
      if ok {
        event := r.event;
        FirstEvent(event);
        assert parser.emitted == [event] && parser.emitted == done + [event];
      }
    }

    /** Read STREAM-START and stop at the first event after it. */
    method Start() returns (ok: bool)
      requires parser.Valid() && parser.error.None? && parser.emitted == [] && !parser.state.EndState?
      requires done == [] && at == START && anchors == map[]
      modifies this, parser
      ensures parser.Valid() && (ok <==> parser.error.None?)
      ensures ok ==> Valid() && done == [StreamStart] && at == Level(ExpDocument, Closed) && anchors == map[]
    {
      hide Valid, Parser.Valid;
      ok := First();
      if ok {
        if !event.StreamStart? { assert false; }
        ok := Skip();
      }
    }

    /** Advance to the next event; false when the parser fails. */
    method Skip() returns (ok: bool)
      requires Valid() && !event.StreamEnd?
      modifies this`event, this`done, this`at, parser
      ensures parser.Valid()
      ensures ok <==> parser.error.None?
      ensures ok ==> Valid() && done == old(done) + [old(event)] && Left() < old(Left())
      ensures ok ==> Some(at) == Step(old(at), old(event))
    {
      hide Parser.Valid, Measure, Run;
      RunSnoc(START, done, event);
      parser.NotAtEnd();
      var r := parser.Parse();
      ok := r.Got?;
      if ok {
        at := Step(at, event).value;
        done := done + [event];
        event := r.event;
        RunSnoc(START, done, event);
      }
    }

    /** Read one node. */
    method ParseNode() returns (ok: bool, n: Node, ghost t: Tree)
      requires Valid() && NodeWanted(at) && IsNode(event)
      modifies this, parser
      ensures parser.Valid() && (ok <==> parser.error.None?)
      ensures ok ==> Valid() && BuiltNode(old(View()), View(), n, t) && Left() < old(Left())
      decreases Left(), 2
    {
      hide BuiltNode, Run, Measure, Parser.Valid;
      if event.Scalar? || event.Alias? {
        ok, n, t := ParseLeaf();
      } else {
        ok, n, t := ParseCollection();
      }
    }

    method ParseLeaf() returns (ok: bool, n: Node, ghost t: Tree)
      requires Valid() && NodeWanted(at) && IsLeaf(event)
      modifies this, parser
      ensures parser.Valid() && (ok <==> parser.error.None?)
      ensures ok ==> Valid() && BuiltNode(old(View()), View(), n, t) && Left() < old(Left())
    {
      hide Run, Measure, Parser.Valid;
      t := Leaf(event);
      if event.Alias? {
        n := AliasNode(event.anchor);
      } else {
        n := ScalarNode(event.tag, event.value, event.implicit);
        if event.anchorOpt.Some? {
          anchors := anchors[event.anchorOpt.value := n];
        }
      }
      assert anchors == Bind(old(anchors), Anchored(t));
      ok := Skip();
    }

    /**
     A sequence or a mapping.  The source enters the node in the anchor table before reading its children;
     here the finished node is entered after them, unless one of them has taken the name.
     */
    method ParseCollection() returns (ok: bool, n: Node, ghost t: Tree)
      requires Valid() && NodeWanted(at) && (event.SequenceStart? || event.MappingStart?)
      modifies this, parser
      ensures parser.Valid() && (ok <==> parser.error.None?)
      ensures ok ==> Valid() && BuiltNode(old(View()), View(), n, t) && Left() < old(Left())
      decreases Left(), 1
    {
      hide BuiltNode, BuiltItems, Run, Measure, Parser.Valid;
      n, t := AliasNode([]), Leaf(event);
      var open := event;
      if open.anchorOpt.Some? { anchors := anchors - {open.anchorOpt.value}; }
      ok := Skip();
      if !ok { return; }
      ghost var m := View();
      var children;
      ghost var items;
      if open.SequenceStart? {
        ok, children, items := ParseItems();
        n, t := SequenceNode(children), Sequence(open, items);
      } else {
        ok, children, items := ParsePairs();
        n, t := MappingNode(children), Mapping(open, items);
      }
      if !ok { return; }
      ghost var m', close := View(), event;
      anchors := EnterLate(open.anchorOpt, n, anchors);
      ok := Skip();
      if !ok { return; }
      WholeCollection(old(View()), m, m', open, close, children, items, View(), n, t);
    }

    method ParseItems() returns (ok: bool, children: seq<Node>, ghost items: seq<Tree>)
      requires Valid() && NodeWanted(at) && at.top.ExpItem?
      modifies this, parser
      ensures parser.Valid() && (ok <==> parser.error.None?)
      ensures ok ==> Valid() && BuiltItems(old(View()), View(), children, items) && Left() <= old(Left())
      ensures ok ==> event.SequenceEnd? && at == old(at)
      decreases Left(), 3
    {
      hide BuiltNode, BuiltItems, Run, Measure, Parser.Valid;
      children, items := [], [];
      NoItems(View());
      while !event.SequenceEnd?
        invariant Valid() && BuiltItems(old(View()), View(), children, items)
        invariant at == old(at) && Left() <= old(Left())
        decreases Left()
      {
        ghost var m := View();
        var child;
        ghost var t;
        ok, child, t := ParseNode();
        if !ok { return; }
        OneMore(old(View()), m, View(), children, items, child, t);
        After(old(View()), View(), children + [child], items + [t]);
        children, items := children + [child], items + [t];
      }
      ok := true;
    }

    method ParsePairs() returns (ok: bool, children: seq<Node>, ghost items: seq<Tree>)
      requires Valid() && NodeWanted(at) && at.top.ExpKey?
      modifies this, parser
      ensures parser.Valid() && (ok <==> parser.error.None?)
      ensures ok ==> Valid() && BuiltItems(old(View()), View(), children, items) && Left() <= old(Left())
      ensures ok ==> event.MappingEnd? && at == old(at) && |items| % 2 == 0
      decreases Left(), 4
    {
      hide BuiltNode, BuiltItems, Run, Measure, Parser.Valid;
      children, items := [], [];
      NoItems(View());
      while !event.MappingEnd?
        invariant Valid() && BuiltItems(old(View()), View(), children, items)
        invariant at == old(at) && |items| % 2 == 0 && Left() <= old(Left())
        decreases Left()
      {
        ok, children, items := ParsePair(old(View()), children, items);
        if !ok { return; }
      }
      ok := true;
    }

    /** A key and its value, after the `children` read since `from`. */
    method ParsePair(ghost from: Progress, children: seq<Node>, ghost items: seq<Tree>)
      returns (ok: bool, children': seq<Node>, ghost items': seq<Tree>)
      requires Valid() && NodeWanted(at) && at.top.ExpKey? && !event.MappingEnd?
      requires BuiltItems(from, View(), children, items)
      modifies this, parser
      ensures parser.Valid() && (ok <==> parser.error.None?)
      ensures ok ==> Valid() && BuiltItems(from, View(), children', items') && Left() < old(Left())
      ensures ok ==> at == old(at) && |items'| == |items| + 2
      ensures ok ==> |children'| == |children| + 2 && children <= children' && items <= items'
      decreases Left(), 3
    {
      hide BuiltNode, BuiltItems, Run, Measure, Parser.Valid;
      After(from, View(), children, items);
      ghost var m := View();
      var key, value;
      ghost var t, u;
      children', items' := children, items;
      ok, key, t := ParseNode();
      if !ok { return; }
      OneMore(from, m, View(), children, items, key, t);
      After(from, View(), children + [key], items + [t]);
      m := View();
      ok, value, u := ParseNode();
      if !ok { return; }
      OneMore(from, m, View(), children + [key], items + [t], value, u);
      After(from, View(), children + [key] + [value], items + [t] + [u]);
      children', items' := children + [key] + [value], items + [t] + [u];
    }

    /** The next document, or none at the end of the stream. */
    method ParseDocument() returns (ok: bool, doc: Option<DocumentNode>, ghost t: Tree)
      requires Valid() && at.Level? && at.top.ExpDocument?
      modifies this, parser
      ensures parser.Valid() && (ok <==> parser.error.None?)
      ensures ok && doc.None? ==> event.StreamEnd? && unchanged(this) && unchanged(parser)
      ensures ok && doc.Some? ==>
                && Valid() && at == old(at) && Left() < old(Left())
                && DocumentRead(old(done), old(event), done, doc.value, t)
    {
      hide Run, Measure, Parser.Valid;
      t := Leaf(event);
      if event.StreamEnd? {
        return true, None, t;
      }
      if !event.DocumentStart? { assert false; }
      anchors := map[];
      ok := Skip();
      if !ok { return false, None, t; }
      var root;
      ok, root, t := ParseNode();
      if !ok { return false, None, t; }
      ghost var end := event;
      if !event.DocumentEnd? { assert false; }
      doc := Some(DocumentNode(root, anchors));
      ok := Skip();
      assert ok ==> done == old(done) + [old(event)] + Flatten(t) + [end];
    }
  }

  /** The events of one document, and the document they stand for. */
  ghost predicate DocumentRead(done: seq<Event>, start: Event, done': seq<Event>, doc: DocumentNode, t: Tree) {
    && WellFormed(t) && doc == DocumentNode(NodeOf(t), Bind(map[], Anchored(t)))
    && start.DocumentStart?
    && exists end: Event :: end.DocumentEnd? && done' == done + [start] + Flatten(t) + [end]
  }

  lemma After(p: Progress, p': Progress, children: seq<Node>, items: seq<Tree>)
    requires BuiltItems(p, p', children, items)
    ensures NodeWanted(p.at) && !p.at.top.ExpRoot? && p'.at == AfterNodes(p.at, |items|)
  {
  }
}
