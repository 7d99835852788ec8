/**
 The decoder of a node tree into generic values: sequences, maps and resolved scalars.

 An alias is decoded by decoding the anchored node while the alias is marked as active, so that an anchor
 that contains itself is refused. The theorems say that this amounts to writing the anchored nodes out in
 place of the aliases and decoding the tree that results.
 */
module YamlDecoder {
  import opened Wrappers
  import opened YamlEvents
  import opened YamlNodes

  /** A resolved scalar: the tag it was resolved to and its text. */
  datatype Atom = Atom(tag: Bytes, text: Bytes)

  /** Resolution of a scalar by tag, text and implicit flag; none for text its tag does not allow. */
  type Resolver = (Bytes, Bytes, bool) -> Option<Atom>

  datatype Value =
    | AtomValue(atom: Atom)
    | SequenceValue(items: seq<Value>)
    | MapValue(entries: map<Value, Value>)

  type Anchors = map<Bytes, Node>

  const MERGE_KEY: Bytes := [0x3C, 0x3C]
  const MERGE_TAG: Bytes := [
    0x74, 0x61, 0x67, 0x3A, 0x79, 0x61, 0x6D, 0x6C, 0x2E, 0x6F, 0x72, 0x67, 0x2C,
    0x32, 0x30, 0x30, 0x32, 0x3A, 0x6D, 0x65, 0x72, 0x67, 0x65]

  predicate IsMerge(n: Node) {
    n.ScalarNode? && n.value == MERGE_KEY && (n.implicit || n.tag == MERGE_TAG)
  }

  predicate Collection(n: Node) {
    n.SequenceNode? || n.MappingNode?
  }

  function Width(n: Node): nat {
    if Collection(n) then |n.children| else 0
  }

  /** Anchors that are not being expanded. */
  function Idle(D: Anchors, active: set<Bytes>): nat {
    |D.Keys - active|
  }

  lemma Busier(D: Anchors, active: set<Bytes>, a: Bytes)
    requires a in D && a !in active
    ensures Idle(D, active + {a}) == Idle(D, active) - 1
  {
    assert D.Keys - active == (D.Keys - (active + {a})) + {a};
  }

  //
  // Decoding, with the set of active aliases.
  //

  function Decode(R: Resolver, D: Anchors, n: Node, active: set<Bytes>): Option<Value>
    decreases Idle(D, active), n, Width(n) + 1
  {
    match n
    case ScalarNode(tag, value, implicit) =>
      (match R(tag, value, implicit) case None => None case Some(atom) => Some(AtomValue(atom)))
    case AliasNode(a) =>
      if a !in D || a in active then None
      else
        Busier(D, active, a);
        Decode(R, D, D[a], active + {a})
    case SequenceNode(_) =>
      (match DecodeItems(R, D, n, 0, active) case None => None case Some(items) => Some(SequenceValue(items)))
    case MappingNode(_) =>
      match DecodePairs(R, D, n, 0, map[], active) case None => None case Some(m) => Some(MapValue(m))
  }

  function DecodeItems(R: Resolver, D: Anchors, p: Node, i: nat, active: set<Bytes>): Option<seq<Value>>
    requires p.SequenceNode? && i <= |p.children|
    decreases Idle(D, active), p, |p.children| - i
  {
    if i == |p.children| then Some([])
    else
      match Decode(R, D, p.children[i], active)
      case None => None
      case Some(v) =>
        match DecodeItems(R, D, p, i + 1, active)
        case None => None
        case Some(vs) => Some([v] + vs)
  }

  /** Adds the entries of a mapping from its `i`-th child on; a later entry for a key replaces an earlier one. */
  function DecodePairs(R: Resolver, D: Anchors, p: Node, i: nat, m: map<Value, Value>, active: set<Bytes>): Option<map<Value, Value>>
    requires p.MappingNode? && i <= |p.children|
    decreases Idle(D, active), p, |p.children| - i
  {
    if i == |p.children| then Some(m)
    else if i + 1 == |p.children| then None
    else if IsMerge(p.children[i]) then
      match DecodeMerge(R, D, p.children[i + 1], m, active)
      case None => None
      case Some(m') => DecodePairs(R, D, p, i + 2, m', active)
    else
      match Decode(R, D, p.children[i], active)
      case None => None
      case Some(k) =>
        if !k.AtomValue? then None
        else
          match Decode(R, D, p.children[i + 1], active)
          case None => None
          case Some(v) => DecodePairs(R, D, p, i + 2, m[k := v], active)
  }

  /** Adds the entries of a mapping, of an alias of a mapping, or of a sequence of these, the last first. */
  function DecodeMerge(R: Resolver, D: Anchors, n: Node, m: map<Value, Value>, active: set<Bytes>): Option<map<Value, Value>>
    decreases Idle(D, active), n, Width(n) + 2
  {
    match n
    case SequenceNode(children) => DecodeMergeItems(R, D, n, |children|, m, active)
    case _ => DecodeMergeOne(R, D, n, m, active)
  }

  function DecodeMergeOne(R: Resolver, D: Anchors, n: Node, m: map<Value, Value>, active: set<Bytes>): Option<map<Value, Value>>
    decreases Idle(D, active), n, Width(n) + 1
  {
    match n
    case MappingNode(_) => DecodePairs(R, D, n, 0, m, active)
    case AliasNode(a) =>
      if a !in D || !D[a].MappingNode? || a in active then None
      else
        Busier(D, active, a);
        DecodePairs(R, D, D[a], 0, m, active + {a})
    case _ => None
  }

  function DecodeMergeItems(R: Resolver, D: Anchors, p: Node, i: nat, m: map<Value, Value>, active: set<Bytes>): Option<map<Value, Value>>
    requires p.SequenceNode? && i <= |p.children|
    decreases Idle(D, active), p, i
  {
    if i == 0 then Some(m)
    else
      match DecodeMergeOne(R, D, p.children[i - 1], m, active)
      case None => None
      case Some(m') => DecodeMergeItems(R, D, p, i - 1, m', active)
  }

  //
  // What a mapping without merge keys decodes to.
  //

  ghost predicate NoMergeKeys(p: Node)
    requires p.MappingNode?
  {
    forall j :: 0 <= j < |p.children| && j % 2 == 0 ==> !IsMerge(p.children[j])
  }

  /** Some pair from the `i`-th child on has that key. */
  ghost predicate HasKey(R: Resolver, D: Anchors, p: Node, i: nat, active: set<Bytes>, k: Value)
    requires p.MappingNode?
  {
    exists j :: i <= j < |p.children| && j % 2 == 0 && Decode(R, D, p.children[j], active) == Some(k)
  }

  /** The pair at `j` is the last one with its key, and its value is in the map. */
  ghost predicate PairKept(R: Resolver, D: Anchors, p: Node, j: nat, active: set<Bytes>, r: map<Value, Value>)
    requires p.MappingNode? && j + 1 < |p.children|
  {
    var k, v := Decode(R, D, p.children[j], active), Decode(R, D, p.children[j + 1], active);
    && k.Some? && v.Some? && k.value.AtomValue?
    && (HasKey(R, D, p, j + 2, active, k.value) || (k.value in r && r[k.value] == v.value))
  }

  /** The keys are those of the pairs, each with the value of its last pair; what was there before stays otherwise. */
  lemma {:induction false} LastPairWins(R: Resolver, D: Anchors, p: Node, i: nat, m: map<Value, Value>, active: set<Bytes>)
    requires p.MappingNode? && i <= |p.children| && i % 2 == 0 && NoMergeKeys(p)
    requires DecodePairs(R, D, p, i, m, active).Some?
    ensures var r := DecodePairs(R, D, p, i, m, active).value;
      && |p.children| % 2 == 0
      && (forall k :: k in r <==> k in m || HasKey(R, D, p, i, active, k))
      && (forall k :: k in m && !HasKey(R, D, p, i, active, k) ==> r[k] == m[k])
      && (forall j :: i <= j < |p.children| && j % 2 == 0 ==> PairKept(R, D, p, j, active, r))
    decreases |p.children| - i
  {
    hide Decode, IsMerge;
    if i < |p.children| {
      var k, v := Decode(R, D, p.children[i], active).value, Decode(R, D, p.children[i + 1], active).value;
      LastPairWins(R, D, p, i + 2, m[k := v], active);
      forall x ensures HasKey(R, D, p, i, active, x) <==> x == k || HasKey(R, D, p, i + 2, active, x) {
        HasKeyStep(R, D, p, i, active, x);
      }
    }
  }

  lemma HasKeyStep(R: Resolver, D: Anchors, p: Node, i: nat, active: set<Bytes>, x: Value)
    requires p.MappingNode? && i < |p.children| && i % 2 == 0
    ensures HasKey(R, D, p, i, active, x) <==>
      Decode(R, D, p.children[i], active) == Some(x) || HasKey(R, D, p, i + 2, active, x)
  {
    hide Decode;
  }

  //
  // What sequences and merged sequences decode to.
  //

  /** These are the values of the items from the `i`-th on. */
  ghost predicate ValuesFrom(R: Resolver, D: Anchors, cs: seq<Node>, i: nat, active: set<Bytes>, vs: seq<Value>) {
    i + |vs| == |cs| && forall k :: 0 <= k < |vs| ==> Decode(R, D, cs[i + k], active) == Some(vs[k])
  }

  lemma {:induction false} ItemsGiven(R: Resolver, D: Anchors, p: Node, i: nat, active: set<Bytes>, vs: seq<Value>)
    requires p.SequenceNode? && i <= |p.children| && ValuesFrom(R, D, p.children, i, active, vs)
    ensures DecodeItems(R, D, p, i, active) == Some(vs)
    decreases |p.children| - i
  {
    hide Decode;
    if i < |p.children| {
      assert Decode(R, D, p.children[i + 0], active) == Some(vs[0]);
      forall k | 0 <= k < |vs[1..]| ensures Decode(R, D, p.children[i + 1 + k], active) == Some(vs[1..][k]) {
        assert vs[1..][k] == vs[k + 1] && i + 1 + k == i + (k + 1);
      }
      ItemsGiven(R, D, p, i + 1, active, vs[1..]);
      assert vs == [vs[0]] + vs[1..];
    }
  }

  lemma {:induction false} ItemsTaken(R: Resolver, D: Anchors, p: Node, i: nat, active: set<Bytes>)
    requires p.SequenceNode? && i <= |p.children| && DecodeItems(R, D, p, i, active).Some?
    ensures ValuesFrom(R, D, p.children, i, active, DecodeItems(R, D, p, i, active).value)
    decreases |p.children| - i
  {
    hide Decode;
    if i < |p.children| {
      ItemsTaken(R, D, p, i + 1, active);
      var rest, vs := DecodeItems(R, D, p, i + 1, active).value, DecodeItems(R, D, p, i, active).value;
      forall k | 0 <= k < |vs| ensures Decode(R, D, p.children[i + k], active) == Some(vs[k]) {
        if k > 0 {
          assert rest[k - 1] == vs[k] && i + 1 + (k - 1) == i + k;
        }
      }
    }
  }

  /** A sequence decodes to the values of its items, in order. */
  lemma SequenceDecodes(R: Resolver, D: Anchors, cs: seq<Node>, active: set<Bytes>, vs: seq<Value>)
    ensures Decode(R, D, SequenceNode(cs), active) == Some(SequenceValue(vs)) <==>
      |vs| == |cs| && forall i :: 0 <= i < |cs| ==> Decode(R, D, cs[i], active) == Some(vs[i])
  {
    var p := SequenceNode(cs);
    var r := DecodeItems(R, D, p, 0, active);
    assert Decode(R, D, p, active) == if r.None? then None else Some(SequenceValue(r.value));
    hide DecodeItems, Decode;
    if r.Some? { ItemsTaken(R, D, p, 0, active); }
    if |vs| == |cs| && forall i :: 0 <= i < |cs| ==> Decode(R, D, cs[i], active) == Some(vs[i]) {
      ItemsGiven(R, D, p, 0, active, vs);
    }
  }

  /** The entries of `e` put over those of `m`. */
  function Over(m: map<Value, Value>, e: Option<map<Value, Value>>): Option<map<Value, Value>> {
    match e case None => None case Some(n) => Some(m + n)
  }

  lemma OverTwice(m: map<Value, Value>, a: map<Value, Value>, e: Option<map<Value, Value>>)
    ensures Over(m + a, e) == Over(m, Over(a, e))
  {
    if e.Some? { assert (m + a) + e.value == m + (a + e.value); }
  }

  /** The entries of a mapping replace those there were, whatever there was. */
  lemma {:induction false} PairsOver(R: Resolver, D: Anchors, p: Node, i: nat, m: map<Value, Value>, active: set<Bytes>)
    requires p.MappingNode? && i <= |p.children|
    ensures DecodePairs(R, D, p, i, m, active) == Over(m, DecodePairs(R, D, p, i, map[], active))
    decreases Idle(D, active), p, |p.children| - i
  {
    hide Decode, DecodeMerge, IsMerge;
    if i == |p.children| {
      assert m + map[] == m;
    } else if i + 1 < |p.children| {
      if IsMerge(p.children[i]) {
        MergeOver(R, D, p.children[i + 1], m, active);
        var a := DecodeMerge(R, D, p.children[i + 1], map[], active);
        if a.Some? {
          PairsOver(R, D, p, i + 2, m + a.value, active);
          PairsOver(R, D, p, i + 2, a.value, active);
          OverTwice(m, a.value, DecodePairs(R, D, p, i + 2, map[], active));
        }
      } else {
        var k, v := Decode(R, D, p.children[i], active), Decode(R, D, p.children[i + 1], active);
        if k.Some? && v.Some? {
          assert m[k.value := v.value] == m + map[k.value := v.value];
          assert map[][k.value := v.value] == map[k.value := v.value];
          PairsOver(R, D, p, i + 2, m[k.value := v.value], active);
          PairsOver(R, D, p, i + 2, map[k.value := v.value], active);
          OverTwice(m, map[k.value := v.value], DecodePairs(R, D, p, i + 2, map[], active));
        }
      }
    }
  }

  lemma {:induction false} MergeOver(R: Resolver, D: Anchors, n: Node, m: map<Value, Value>, active: set<Bytes>)
    ensures DecodeMerge(R, D, n, m, active) == Over(m, DecodeMerge(R, D, n, map[], active))
    decreases Idle(D, active), n, Width(n) + 2
  {
    hide DecodeMergeOne;
    if n.SequenceNode? {
      MergeItemsOver(R, D, n, |n.children|, m, active);
    } else {
      MergeOneOver(R, D, n, m, active);
    }
  }

  lemma {:induction false} MergeOneOver(R: Resolver, D: Anchors, n: Node, m: map<Value, Value>, active: set<Bytes>)
    ensures DecodeMergeOne(R, D, n, m, active) == Over(m, DecodeMergeOne(R, D, n, map[], active))
    decreases Idle(D, active), n, Width(n) + 1
  {
    hide DecodePairs;
    match n
    case MappingNode(_) => PairsOver(R, D, n, 0, m, active);
    case AliasNode(a) =>
      if a in D && D[a].MappingNode? && a !in active {
        Busier(D, active, a);
        PairsOver(R, D, D[a], 0, m, active + {a});
      }
    case _ =>
  }

  lemma {:induction false} MergeItemsOver(R: Resolver, D: Anchors, p: Node, i: nat, m: map<Value, Value>, active: set<Bytes>)
    requires p.SequenceNode? && i <= |p.children|
    ensures DecodeMergeItems(R, D, p, i, m, active) == Over(m, DecodeMergeItems(R, D, p, i, map[], active))
    decreases Idle(D, active), p, i
  {
    hide DecodeMergeOne;
    if i == 0 {
      assert m + map[] == m;
    } else {
      MergeOneOver(R, D, p.children[i - 1], m, active);
      var a := DecodeMergeOne(R, D, p.children[i - 1], map[], active);
      if a.Some? {
        MergeItemsOver(R, D, p, i - 1, m + a.value, active);
        MergeItemsOver(R, D, p, i - 1, a.value, active);
        OverTwice(m, a.value, DecodeMergeItems(R, D, p, i - 1, map[], active));
      }
    }
  }

  /** The entries the pair at `j` adds: its own, or those of the merged value. */
  function PairEntries(R: Resolver, D: Anchors, p: Node, j: nat, active: set<Bytes>): Option<map<Value, Value>>
    requires p.MappingNode? && j + 1 < |p.children|
  {
    if IsMerge(p.children[j]) then DecodeMerge(R, D, p.children[j + 1], map[], active)
    else
      match (Decode(R, D, p.children[j], active), Decode(R, D, p.children[j + 1], active))
      case (Some(k), Some(v)) => if k.AtomValue? then Some(map[k := v]) else None
      case _ => None
  }

  lemma PairStep(R: Resolver, D: Anchors, p: Node, i: nat, m: map<Value, Value>, active: set<Bytes>)
    requires p.MappingNode? && i + 1 < |p.children|
    ensures var e := PairEntries(R, D, p, i, active);
      DecodePairs(R, D, p, i, m, active) == if e.None? then None else DecodePairs(R, D, p, i + 2, m + e.value, active)
  {
    hide Decode, DecodeMerge, IsMerge;
    if IsMerge(p.children[i]) {
      MergeOver(R, D, p.children[i + 1], m, active);
    } else {
      var k, v := Decode(R, D, p.children[i], active), Decode(R, D, p.children[i + 1], active);
      if k.Some? && v.Some? { assert m[k.value := v.value] == m + map[k.value := v.value]; }
    }
  }

  /** No pair from `i` on adds the key. */
  ghost predicate NotAdded(R: Resolver, D: Anchors, p: Node, i: nat, active: set<Bytes>, k: Value)
    requires p.MappingNode?
  {
    forall j :: i <= j && j + 1 < |p.children| && j % 2 == 0 ==>
      var e := PairEntries(R, D, p, j, active); e.Some? && k !in e.value
  }

  /** The pair at `j` is the last from `i` on that adds the key. */
  ghost predicate LastAdder(R: Resolver, D: Anchors, p: Node, i: nat, j: nat, active: set<Bytes>, k: Value)
    requires p.MappingNode?
  {
    && i <= j && j + 1 < |p.children| && j % 2 == 0
    && PairEntries(R, D, p, j, active).Some? && k in PairEntries(R, D, p, j, active).value
    && NotAdded(R, D, p, j + 2, active, k)
  }

  /** Merge keys included, a key has the value of the last pair that adds it, and a pair merged late replaces earlier ones. */
  lemma {:induction false} LastEntryWins(R: Resolver, D: Anchors, p: Node, i: nat, m: map<Value, Value>, active: set<Bytes>, k: Value, j: nat)
    requires p.MappingNode? && i <= |p.children| && i % 2 == 0
    requires DecodePairs(R, D, p, i, m, active).Some?
    ensures var r := DecodePairs(R, D, p, i, m, active).value;
      && (LastAdder(R, D, p, i, j, active, k) ==> k in r && r[k] == PairEntries(R, D, p, j, active).value[k])
      && (NotAdded(R, D, p, i, active, k) ==> (k in r <==> k in m) && (k in m ==> r[k] == m[k]))
    decreases |p.children| - i
  {
    hide PairEntries, DecodePairs;
    if i + 1 < |p.children| {
      PairStep(R, D, p, i, m, active);
      var e := PairEntries(R, D, p, i, active).value;
      LastEntryWins(R, D, p, i + 2, m + e, active, k, j);
    } else {
      NoPairs(R, D, p, i, m, active);
    }
  }

  lemma NoPairs(R: Resolver, D: Anchors, p: Node, i: nat, m: map<Value, Value>, active: set<Bytes>)
    requires p.MappingNode? && |p.children| - 1 <= i <= |p.children| && DecodePairs(R, D, p, i, m, active).Some?
    ensures DecodePairs(R, D, p, i, m, active) == Some(m)
  {
  }

  /** The entries the `i`-th item of a merged sequence has by itself. */
  function Own(R: Resolver, D: Anchors, cs: seq<Node>, i: nat, active: set<Bytes>): Option<map<Value, Value>>
    requires i < |cs|
  {
    DecodeMergeOne(R, D, cs[i], map[], active)
  }

  /** The `i`-th item is the first that has the key. */
  ghost predicate FirstHolder(R: Resolver, D: Anchors, cs: seq<Node>, i: nat, active: set<Bytes>, k: Value) {
    && i < |cs| && Own(R, D, cs, i, active).Some? && k in Own(R, D, cs, i, active).value
    && forall j :: 0 <= j < i ==> Own(R, D, cs, j, active).Some? && k !in Own(R, D, cs, j, active).value
  }

  lemma {:induction false} FirstOfItems(R: Resolver, D: Anchors, p: Node, n: nat, m: map<Value, Value>, active: set<Bytes>, k: Value)
    requires p.SequenceNode? && n <= |p.children|
    ensures DecodeMergeItems(R, D, p, n, m, active).Some? <==> forall i :: 0 <= i < n ==> Own(R, D, p.children, i, active).Some?
    ensures DecodeMergeItems(R, D, p, n, m, active).Some? ==>
      var r := DecodeMergeItems(R, D, p, n, m, active).value;
      && (forall i :: 0 <= i < n && FirstHolder(R, D, p.children, i, active, k) ==>
            k in r && r[k] == Own(R, D, p.children, i, active).value[k])
      && ((forall i :: 0 <= i < n ==> k !in Own(R, D, p.children, i, active).value) ==> (k in r <==> k in m) && (k in m ==> r[k] == m[k]))
    decreases n
  {
    hide DecodeMergeOne;
    if n > 0 {
      MergeOneOver(R, D, p.children[n - 1], m, active);
      var a := Own(R, D, p.children, n - 1, active);
      if a.Some? {
        FirstOfItems(R, D, p, n - 1, m + a.value, active, k);
      }
    }
  }

  /**
   When a sequence is merged, a key that several items have takes the value of the first of them, over
   anything the mapping held before; the merge fails exactly when an item is no mapping or fails.
   */
  lemma FirstItemWins(R: Resolver, D: Anchors, cs: seq<Node>, m: map<Value, Value>, active: set<Bytes>)
    ensures var r := DecodeMerge(R, D, SequenceNode(cs), m, active);
      && (r.Some? <==> forall i :: 0 <= i < |cs| ==> Own(R, D, cs, i, active).Some?)
      && (r.Some? ==>
            forall k, i: nat :: FirstHolder(R, D, cs, i, active, k) ==> k in r.value && r.value[k] == Own(R, D, cs, i, active).value[k])
      && (r.Some? ==>
            forall k :: (forall i :: 0 <= i < |cs| ==> k !in Own(R, D, cs, i, active).value) ==>
              (k in r.value <==> k in m) && (k in m ==> r.value[k] == m[k]))
  {
    hide DecodeMergeItems, Own;
    var p := SequenceNode(cs);
    FirstOfItems(R, D, p, |cs|, m, active, SequenceValue([]));
    forall k
      ensures var r := DecodeMerge(R, D, p, m, active);
        && (r.Some? <==> forall i :: 0 <= i < |cs| ==> Own(R, D, cs, i, active).Some?)
        && (r.Some? ==> forall i: nat :: FirstHolder(R, D, cs, i, active, k) ==> k in r.value && r.value[k] == Own(R, D, cs, i, active).value[k])
        && (r.Some? ==> (forall i :: 0 <= i < |cs| ==> k !in Own(R, D, cs, i, active).value) ==>
              (k in r.value <==> k in m) && (k in m ==> r.value[k] == m[k]))
    {
      FirstOfItems(R, D, p, |cs|, m, active, k);
    }
  }

  //
  // Writing aliases out.
  //

  /** The child is a merge value given by an alias of a sequence, which the decoder refuses. */
  predicate RefusedMerge(D: Anchors, p: Node, i: nat)
    requires Collection(p) && i < |p.children|
  {
    && p.MappingNode? && i % 2 == 1 && IsMerge(p.children[i - 1])
    && p.children[i].AliasNode? && p.children[i].name in D && D[p.children[i].name].SequenceNode?
  }

  /** The child is a key given by an alias of a merge key, which the decoder takes as an ordinary key: it stays as it is. */
  predicate AliasedMerge(D: Anchors, p: Node, i: nat)
    requires Collection(p) && i < |p.children|
  {
    && p.MappingNode? && i % 2 == 0
    && p.children[i].AliasNode? && p.children[i].name in D && IsMerge(D[p.children[i].name])
  }

  function WithChildren(p: Node, children: seq<Node>): Node
    requires Collection(p)
  {
    if p.SequenceNode? then SequenceNode(children) else MappingNode(children)
  }

  /** The tree with at most `depth` aliases written out on any path, where that is enough. */
  function Expand(D: Anchors, n: Node, depth: nat): Option<Node>
    decreases depth, n, Width(n) + 1
  {
    match n
    case ScalarNode(_, _, _) => Some(n)
    case AliasNode(a) => if a !in D || depth == 0 then None else Expand(D, D[a], depth - 1)
    case _ =>
      match ExpandAll(D, n, 0, depth)
      case None => None
      case Some(children) => Some(WithChildren(n, children))
  }

  function ExpandAll(D: Anchors, p: Node, i: nat, depth: nat): (r: Option<seq<Node>>)
    requires Collection(p) && i <= |p.children|
    ensures r.Some? ==> |r.value| == |p.children| - i
    decreases depth, p, |p.children| - i
  {
    if i == |p.children| then Some([])
    else if RefusedMerge(D, p, i) then None
    else
      match Expand(D, p.children[i], depth)
      case None => None
      case Some(x) =>
        match ExpandAll(D, p, i + 1, depth)
        case None => None
        case Some(xs) => Some([if AliasedMerge(D, p, i) then p.children[i] else x] + xs)
  }

  /** Writing out as the decoder does it: no alias inside its own expansion. */
  function Unfold(D: Anchors, n: Node, active: set<Bytes>): Option<Node>
    decreases Idle(D, active), n, Width(n) + 1
  {
    match n
    case ScalarNode(_, _, _) => Some(n)
    case AliasNode(a) =>
      if a !in D || a in active then None
      else
        Busier(D, active, a);
        Unfold(D, D[a], active + {a})
    case _ =>
      match UnfoldAll(D, n, 0, active)
      case None => None
      case Some(children) => Some(WithChildren(n, children))
  }

  function UnfoldAll(D: Anchors, p: Node, i: nat, active: set<Bytes>): (r: Option<seq<Node>>)
    requires Collection(p) && i <= |p.children|
    ensures r.Some? ==> |r.value| == |p.children| - i
    decreases Idle(D, active), p, |p.children| - i
  {
    if i == |p.children| then Some([])
    else if RefusedMerge(D, p, i) then None
    else
      match Unfold(D, p.children[i], active)
      case None => None
      case Some(x) =>
        match UnfoldAll(D, p, i + 1, active)
        case None => None
        case Some(xs) => Some([if AliasedMerge(D, p, i) then p.children[i] else x] + xs)
  }

  //
  // The active set stops exactly the expansions that do not end.
  //

  lemma {:induction false} UnfoldIsExpand(D: Anchors, n: Node, active: set<Bytes>)
    requires Unfold(D, n, active).Some?
    ensures Expand(D, n, Idle(D, active)) == Unfold(D, n, active)
    decreases Idle(D, active), n, Width(n) + 1
  {
    match n
    case ScalarNode(_, _, _) =>
    case AliasNode(a) =>
      Busier(D, active, a);
      UnfoldIsExpand(D, D[a], active + {a});
    case _ => UnfoldAllIsExpandAll(D, n, 0, active);
  }

  lemma {:induction false} UnfoldAllIsExpandAll(D: Anchors, p: Node, i: nat, active: set<Bytes>)
    requires Collection(p) && i <= |p.children|
    requires UnfoldAll(D, p, i, active).Some?
    ensures ExpandAll(D, p, i, Idle(D, active)) == UnfoldAll(D, p, i, active)
    decreases Idle(D, active), p, |p.children| - i
  {
    if i < |p.children| {
      UnfoldIsExpand(D, p.children[i], active);
      UnfoldAllIsExpandAll(D, p, i + 1, active);
    }
  }

  lemma {:induction false} ExpandDeeper(D: Anchors, n: Node, d: nat, e: nat)
    requires Expand(D, n, d).Some? && d <= e
    ensures Expand(D, n, e) == Expand(D, n, d)
    decreases d, n, Width(n) + 1
  {
    match n
    case ScalarNode(_, _, _) =>
    case AliasNode(a) => ExpandDeeper(D, D[a], d - 1, e - 1);
    case _ => ExpandAllDeeper(D, n, 0, d, e);
  }

  lemma {:induction false} ExpandAllDeeper(D: Anchors, p: Node, i: nat, d: nat, e: nat)
    requires Collection(p) && i <= |p.children|
    requires ExpandAll(D, p, i, d).Some? && d <= e
    ensures ExpandAll(D, p, i, e) == ExpandAll(D, p, i, d)
    decreases d, p, |p.children| - i
  {
    if i < |p.children| {
      ExpandDeeper(D, p.children[i], d, e);
      ExpandAllDeeper(D, p, i + 1, d, e);
    }
  }

  /** The least depth at which an alias can be written out. */
  lemma {:induction false} LeastDepth(D: Anchors, a: Bytes, d: nat) returns (least: nat)
    requires Expand(D, AliasNode(a), d).Some?
    ensures 0 < least <= d && Expand(D, AliasNode(a), least) == Expand(D, AliasNode(a), d)
    ensures Expand(D, AliasNode(a), least - 1).None?
    decreases d
  {
    if d > 0 && Expand(D, AliasNode(a), d - 1).Some? {
      ExpandDeeper(D, AliasNode(a), d - 1, d);
      least := LeastDepth(D, a, d - 1);
    } else {
      least := d;
    }
  }

  /** None of these aliases can be written out within that depth. */
  ghost predicate TooDeep(D: Anchors, active: set<Bytes>, d: nat) {
    forall a :: a in active ==> Expand(D, AliasNode(a), d).None?
  }

  lemma {:induction false} ExpandIsUnfold(D: Anchors, n: Node, active: set<Bytes>, d: nat)
    requires Expand(D, n, d).Some? && TooDeep(D, active, d)
    ensures Unfold(D, n, active) == Expand(D, n, d)
    decreases d, n, Width(n) + 1
  {
    match n
    case ScalarNode(_, _, _) =>
    case AliasNode(a) =>
      var least := LeastDepth(D, a, d);
      forall b | b in active + {a} ensures Expand(D, AliasNode(b), least - 1).None? {
        if b != a && Expand(D, AliasNode(b), least - 1).Some? {
          ExpandDeeper(D, AliasNode(b), least - 1, d);
        }
      }
      ExpandIsUnfold(D, D[a], active + {a}, least - 1);
    case _ => ExpandAllIsUnfoldAll(D, n, 0, active, d);
  }

  lemma {:induction false} ExpandAllIsUnfoldAll(D: Anchors, p: Node, i: nat, active: set<Bytes>, d: nat)
    requires Collection(p) && i <= |p.children|
    requires ExpandAll(D, p, i, d).Some? && TooDeep(D, active, d)
    ensures UnfoldAll(D, p, i, active) == ExpandAll(D, p, i, d)
    decreases d, p, |p.children| - i
  {
    if i < |p.children| {
      ExpandIsUnfold(D, p.children[i], active, d);
      ExpandAllIsUnfoldAll(D, p, i + 1, active, d);
    }
  }

  /** The active set refuses an alias exactly when no depth is enough to write the tree out. */
  lemma UnfoldIff(D: Anchors, n: Node, x: Node)
    ensures Unfold(D, n, {}) == Some(x) <==> exists d: nat :: Expand(D, n, d) == Some(x)
  {
    hide Unfold, Expand;
    if Unfold(D, n, {}) == Some(x) {
      UnfoldIsExpand(D, n, {});
    }
    if d: nat :| Expand(D, n, d) == Some(x) {
      ExpandIsUnfold(D, n, {}, d);
    }
  }

  //
  // Decoding is decoding the written-out tree.
  //

  /** A key of the tree that is an alias of a merge key has its anchor in the table `K`. */
  predicate KeysIn(D: Anchors, K: Anchors, n: Node) {
    Collection(n) ==>
      && (forall i :: 0 <= i < |n.children| && AliasedMerge(D, n, i) ==> n.children[i].name in K)
      && (forall i :: 0 <= i < |n.children| ==> KeysIn(D, K, n.children[i]))
  }

  /** No anchor is on an alias; the merge keys that are named by aliases in anchored nodes are kept in `K`. */
  ghost predicate CleanAnchors(D: Anchors, K: Anchors) {
    && (forall a :: a in D ==> !D[a].AliasNode? && KeysIn(D, K, D[a]))
    && (forall a :: a in K ==> a in D && K[a] == D[a] && IsMerge(K[a]))
  }

  lemma Kept(D: Anchors, K: Anchors, n: Node, active: set<Bytes>)
    requires CleanAnchors(D, K) && Unfold(D, n, active).Some?
    ensures var x := Unfold(D, n, active).value;
      && !x.AliasNode?
      && (!n.AliasNode? ==> IsMerge(x) == IsMerge(n) && x.SequenceNode? == n.SequenceNode? && x.MappingNode? == n.MappingNode?)
      && (n.AliasNode? ==> n.name in D && (IsMerge(x) ==> IsMerge(D[n.name])))
      && (Collection(n) ==> UnfoldAll(D, n, 0, active).Some? && x.children == UnfoldAll(D, n, 0, active).value)
    decreases n.AliasNode?
  {
    hide KeysIn;
    if n.AliasNode? {
      Kept(D, K, D[n.name], active + {n.name});
    }
  }

  lemma {:induction false} UnfoldedChild(D: Anchors, p: Node, i: nat, k: nat, active: set<Bytes>)
    requires Collection(p) && i <= k < |p.children| && UnfoldAll(D, p, i, active).Some?
    ensures Unfold(D, p.children[k], active).Some? && !RefusedMerge(D, p, k)
    ensures UnfoldAll(D, p, i, active).value[k - i]
      == if AliasedMerge(D, p, k) then p.children[k] else Unfold(D, p.children[k], active).value
    decreases k - i
  {
    if i < k {
      UnfoldedChild(D, p, i + 1, k, active);
    }
  }

  lemma {:induction false} FirstRefusal(D: Anchors, p: Node, i: nat, active: set<Bytes>) returns (k: nat)
    requires Collection(p) && i <= |p.children| && UnfoldAll(D, p, i, active).None?
    ensures i <= k < |p.children| && (RefusedMerge(D, p, k) || Unfold(D, p.children[k], active).None?)
    decreases |p.children| - i
  {
    if RefusedMerge(D, p, i) || Unfold(D, p.children[i], active).None? {
      k := i;
    } else {
      k := FirstRefusal(D, p, i + 1, active);
    }
  }

  /** The decoder's answer for the written-out tree, where there is one. */
  ghost function Written(R: Resolver, K: Anchors, x: Option<Node>): Option<Value> {
    match x case None => None case Some(n) => Decode(R, K, n, {})
  }

  /** Decoding with aliases is decoding the tree with the aliases written out, failures included. */
  lemma {:induction false} DecodeIsWritten(R: Resolver, D: Anchors, K: Anchors, n: Node, active: set<Bytes>)
    requires CleanAnchors(D, K) && KeysIn(D, K, n)
    ensures Decode(R, D, n, active) == Written(R, K, Unfold(D, n, active))
    decreases Idle(D, active), n, 2 * Width(n) + 4
  {
    hide IsMerge;
    match n
    case ScalarNode(_, _, _) =>
    case AliasNode(a) =>
      if a in D && a !in active {
        Busier(D, active, a);
        DecodeIsWritten(R, D, K, D[a], active + {a});
      }
    case SequenceNode(_) =>
      var u := UnfoldAll(D, n, 0, active);
      if u.None? {
        var k := FirstRefusal(D, n, 0, active);
        ItemRefused(R, D, K, n, 0, k, active);
      } else {
        ItemsWritten(R, D, K, n, u.value, 0, active);
      }
    case MappingNode(_) =>
      var u := UnfoldAll(D, n, 0, active);
      if u.None? {
        var k := FirstRefusal(D, n, 0, active);
        PairRefused(R, D, K, n, 0, k, map[], active);
      } else {
        PairsWritten(R, D, K, n, u.value, 0, map[], active);
      }
  }

  lemma {:induction false} ItemRefused(R: Resolver, D: Anchors, K: Anchors, p: Node, i: nat, k: nat, active: set<Bytes>)
    requires CleanAnchors(D, K) && KeysIn(D, K, p) && p.SequenceNode? && i <= k < |p.children|
    requires Unfold(D, p.children[k], active).None?
    ensures DecodeItems(R, D, p, i, active).None?
    decreases Idle(D, active), p, k - i
  {
    hide Unfold, Decode;
    if i == k {
      DecodeIsWritten(R, D, K, p.children[k], active);
    } else {
      ItemRefused(R, D, K, p, i + 1, k, active);
    }
  }

  lemma {:induction false} ItemsWritten(R: Resolver, D: Anchors, K: Anchors, p: Node, xs: seq<Node>, i: nat, active: set<Bytes>)
    requires CleanAnchors(D, K) && KeysIn(D, K, p) && p.SequenceNode? && UnfoldAll(D, p, 0, active) == Some(xs) && i <= |p.children|
    ensures DecodeItems(R, D, p, i, active) == DecodeItems(R, K, SequenceNode(xs), i, {})
    decreases Idle(D, active), p, |p.children| - i
  {
    hide Unfold, Decode, UnfoldAll;
    if i < |p.children| {
      UnfoldedChild(D, p, 0, i, active);
      DecodeIsWritten(R, D, K, p.children[i], active);
      ItemsWritten(R, D, K, p, xs, i + 1, active);
    }
  }

  lemma {:induction false} PairRefused(R: Resolver, D: Anchors, K: Anchors, p: Node, i: nat, k: nat, m: map<Value, Value>, active: set<Bytes>)
    requires CleanAnchors(D, K) && KeysIn(D, K, p) && p.MappingNode? && i <= k < |p.children| && i % 2 == 0
    requires RefusedMerge(D, p, k) || Unfold(D, p.children[k], active).None?
    ensures DecodePairs(R, D, p, i, m, active).None?
    decreases Idle(D, active), p, k - i
  {
    hide Unfold, Decode, DecodeMerge, IsMerge;
    if i + 1 < |p.children| {
      var key, value := p.children[i], p.children[i + 1];
      if k == i || k == i + 1 {
        ScalarUnfolds(D, key, active);
        if k == i || !IsMerge(key) {
          DecodeIsWritten(R, D, K, p.children[k], active);
        }
        MergeRefused(R, D, K, value, m, active);
      } else {
        var next := i + 2;
        forall m' ensures DecodePairs(R, D, p, next, m', active).None? {
          PairRefused(R, D, K, p, next, k, m', active);
        }
      }
    }
  }

  lemma ScalarUnfolds(D: Anchors, n: Node, active: set<Bytes>)
    ensures IsMerge(n) ==> n.ScalarNode? && Unfold(D, n, active) == Some(n)
  {
  }

  lemma {:induction false} PairsWritten(R: Resolver, D: Anchors, K: Anchors, p: Node, xs: seq<Node>, i: nat, m: map<Value, Value>, active: set<Bytes>)
    requires CleanAnchors(D, K) && KeysIn(D, K, p) && p.MappingNode? && UnfoldAll(D, p, 0, active) == Some(xs) && i <= |p.children| && i % 2 == 0
    ensures DecodePairs(R, D, p, i, m, active) == DecodePairs(R, K, MappingNode(xs), i, m, {})
    decreases Idle(D, active), p, |p.children| - i
  {
    hide Unfold, Decode, DecodeMerge, UnfoldAll, IsMerge;
    if i + 1 < |p.children| {
      var key, value := p.children[i], p.children[i + 1];
      UnfoldedChild(D, p, 0, i, active);
      UnfoldedChild(D, p, 0, i + 1, active);
      Kept(D, K, key, active);
      MergeKeyNotAlias(key);
      if AliasedMerge(D, p, i) {
        KeptKey(R, D, K, key, active);
        DecodeIsWritten(R, D, K, value, active);
      } else if IsMerge(key) {
        MergeWritten(R, D, K, value, xs[i + 1], m, active);
      } else {
        DecodeIsWritten(R, D, K, key, active);
        DecodeIsWritten(R, D, K, value, active);
      }
      var next, written := i + 2, MappingNode(xs);
      forall m' ensures DecodePairs(R, D, p, next, m', active) == DecodePairs(R, K, written, next, m', {}) {
        PairsWritten(R, D, K, p, xs, next, m', active);
      }
    }
  }

  /** A merge key behind an alias is an ordinary key, in the tree and in the written one. */
  lemma KeptKey(R: Resolver, D: Anchors, K: Anchors, n: Node, active: set<Bytes>)
    requires n.AliasNode? && n.name in D && n.name in K && K[n.name] == D[n.name] && IsMerge(D[n.name])
    requires Unfold(D, n, active).Some?
    ensures !IsMerge(n) && Decode(R, D, n, active) == Decode(R, K, n, {})
  {
  }

  lemma MergeKeyNotAlias(n: Node)
    ensures IsMerge(n) ==> !n.AliasNode?
  {
  }

  lemma {:induction false} MergeRefused(R: Resolver, D: Anchors, K: Anchors, n: Node, m: map<Value, Value>, active: set<Bytes>)
    requires CleanAnchors(D, K) && KeysIn(D, K, n)
    ensures Unfold(D, n, active).None? || (n.AliasNode? && n.name in D && D[n.name].SequenceNode?) ==>
      DecodeMerge(R, D, n, m, active).None?
    decreases Idle(D, active), n, 2 * Width(n) + 3
  {
    if n.SequenceNode? && Unfold(D, n, active).None? {
      var k := FirstRefusal(D, n, 0, active);
      MergeItemRefused(R, D, K, n, |n.children|, k, m, active);
    } else if !n.SequenceNode? {
      MergeOneWritten(R, D, K, n, m, active);
    }
  }

  lemma {:induction false} MergeWritten(R: Resolver, D: Anchors, K: Anchors, n: Node, x: Node, m: map<Value, Value>, active: set<Bytes>)
    requires CleanAnchors(D, K) && KeysIn(D, K, n) && Unfold(D, n, active) == Some(x)
    requires !(n.AliasNode? && n.name in D && D[n.name].SequenceNode?)
    ensures DecodeMerge(R, D, n, m, active) == DecodeMerge(R, K, x, m, {})
    decreases Idle(D, active), n, 2 * Width(n) + 3
  {
    hide IsMerge;
    Kept(D, K, n, active);
    if n.SequenceNode? {
      MergeItemsWritten(R, D, K, n, x.children, |n.children|, m, active);
    } else {
      MergeOneWritten(R, D, K, n, m, active);
      if n.AliasNode? {
        Kept(D, K, D[n.name], active + {n.name});
      }
    }
  }

  ghost function WrittenMerge(R: Resolver, K: Anchors, x: Option<Node>, m: map<Value, Value>): Option<map<Value, Value>> {
    match x case None => None case Some(n) => DecodeMergeOne(R, K, n, m, {})
  }

  lemma {:induction false} MergeOneWritten(R: Resolver, D: Anchors, K: Anchors, n: Node, m: map<Value, Value>, active: set<Bytes>)
    requires CleanAnchors(D, K) && KeysIn(D, K, n)
    ensures DecodeMergeOne(R, D, n, m, active) == WrittenMerge(R, K, Unfold(D, n, active), m)
    decreases Idle(D, active), n, 2 * Width(n) + 2
  {
    hide IsMerge;
    match n
    case AliasNode(a) =>
      if a in D && a !in active {
        Busier(D, active, a);
        MergeOneWritten(R, D, K, D[a], m, active + {a});
        if Unfold(D, n, active).Some? {
          Kept(D, K, D[a], active + {a});
        }
      }
    case MappingNode(_) =>
      var u := UnfoldAll(D, n, 0, active);
      if u.None? {
        var k := FirstRefusal(D, n, 0, active);
        PairRefused(R, D, K, n, 0, k, m, active);
      } else {
        PairsWritten(R, D, K, n, u.value, 0, m, active);
      }
    case _ =>
  }

  lemma {:induction false} MergeItemRefused(R: Resolver, D: Anchors, K: Anchors, p: Node, i: nat, k: nat, m: map<Value, Value>, active: set<Bytes>)
    requires CleanAnchors(D, K) && KeysIn(D, K, p) && p.SequenceNode? && k < i <= |p.children|
    requires Unfold(D, p.children[k], active).None?
    ensures DecodeMergeItems(R, D, p, i, m, active).None?
    decreases Idle(D, active), p, i
  {
    hide Unfold, DecodeMergeOne;
    if k == i - 1 {
      MergeOneWritten(R, D, K, p.children[k], m, active);
    } else {
      var next := i - 1;
      forall m' ensures DecodeMergeItems(R, D, p, next, m', active).None? {
        MergeItemRefused(R, D, K, p, next, k, m', active);
      }
    }
  }

  lemma {:induction false} MergeItemsWritten(R: Resolver, D: Anchors, K: Anchors, p: Node, xs: seq<Node>, i: nat, m: map<Value, Value>, active: set<Bytes>)
    requires CleanAnchors(D, K) && KeysIn(D, K, p) && p.SequenceNode? && UnfoldAll(D, p, 0, active) == Some(xs) && i <= |p.children|
    ensures DecodeMergeItems(R, D, p, i, m, active) == DecodeMergeItems(R, K, SequenceNode(xs), i, m, {})
    decreases Idle(D, active), p, i
  {
    hide Unfold, DecodeMergeOne, UnfoldAll;
    if i > 0 {
      UnfoldedChild(D, p, 0, i - 1, active);
      MergeOneWritten(R, D, K, p.children[i - 1], m, active);
      var next, written := i - 1, SequenceNode(xs);
      forall m' ensures DecodeMergeItems(R, D, p, next, m', active) == DecodeMergeItems(R, K, written, next, m', {}) {
        MergeItemsWritten(R, D, K, p, xs, next, m', active);
      }
    }
  }

  lemma DecodeWrittenIff(R: Resolver, D: Anchors, K: Anchors, n: Node, v: Value)
    requires CleanAnchors(D, K) && KeysIn(D, K, n)
    ensures Decode(R, D, n, {}) == Some(v) <==>
      exists d: nat :: Expand(D, n, d).Some? && Decode(R, K, Expand(D, n, d).value, {}) == Some(v)
  {
    hide Decode, Unfold, Expand;
    DecodeIsWritten(R, D, K, n, {});
    if Decode(R, D, n, {}) == Some(v) {
      UnfoldIsExpand(D, n, {});
    }
    if d: nat :| Expand(D, n, d).Some? && Decode(R, K, Expand(D, n, d).value, {}) == Some(v) {
      ExpandIsUnfold(D, n, {}, d);
    }
  }

  /** The anchors that are on merge keys. */
  function MergeTexts(D: Anchors): Anchors {
    map a | a in D && IsMerge(D[a]) :: D[a]
  }

  lemma {:induction false} TextsKept(D: Anchors, n: Node)
    ensures KeysIn(D, MergeTexts(D), n)
  {
    if Collection(n) {
      forall i | 0 <= i < |n.children| ensures KeysIn(D, MergeTexts(D), n.children[i]) {
        TextsKept(D, n.children[i]);
      }
    }
  }

  /**
   Decoding a document succeeds with a value exactly when its aliases can all be written out, at some
   depth, and the tree that results decodes to that value. The only aliases the tree still has are keys
   that name the text of a merge key.
   */
  lemma DecodeIff(R: Resolver, D: Anchors, n: Node, v: Value)
    requires forall a :: a in D ==> !D[a].AliasNode?
    ensures Decode(R, D, n, {}) == Some(v) <==>
      exists d: nat :: Expand(D, n, d).Some? && Decode(R, MergeTexts(D), Expand(D, n, d).value, {}) == Some(v)
  {
    hide Decode, Expand, KeysIn;
    TextsKept(D, n);
    forall a | a in D ensures KeysIn(D, MergeTexts(D), D[a]) {
      TextsKept(D, D[a]);
    }
    DecodeWrittenIff(R, D, MergeTexts(D), n, v);
  }

  //
  // Writing out without regard to what the decoder refuses.
  //

  /** The tree with at most `depth` aliases written out on any path, merge values like any other. */
  function Inlined(D: Anchors, n: Node, depth: nat): Option<Node>
    decreases depth, n, Width(n) + 1
  {
    match n
    case ScalarNode(_, _, _) => Some(n)
    case AliasNode(a) => if a !in D || depth == 0 then None else Inlined(D, D[a], depth - 1)
    case _ =>
      match InlinedAll(D, n, 0, depth)
      case None => None
      case Some(children) => Some(WithChildren(n, children))
  }

  function InlinedAll(D: Anchors, p: Node, i: nat, depth: nat): (r: Option<seq<Node>>)
    requires Collection(p) && i <= |p.children|
    decreases depth, p, |p.children| - i
  {
    if i == |p.children| then Some([])
    else
      match Inlined(D, p.children[i], depth)
      case None => None
      case Some(x) =>
        match InlinedAll(D, p, i + 1, depth)
        case None => None
        case Some(xs) => Some([x] + xs)
  }

  /** No merge value of the tree is an alias of a sequence. */
  predicate MergesPlain(D: Anchors, n: Node) {
    Collection(n) ==>
      && (forall i :: 0 <= i < |n.children| ==> !RefusedMerge(D, n, i))
      && (forall i :: 0 <= i < |n.children| ==> MergesPlain(D, n.children[i]))
  }

  /** No key of the tree is an alias of a merge key. */
  predicate KeysPlain(D: Anchors, n: Node) {
    KeysIn(D, map[], n)
  }

  /** The same of every anchored node, and no anchor is on an alias. */
  ghost predicate AllPlain(D: Anchors) {
    forall a :: a in D ==> !D[a].AliasNode? && KeysPlain(D, D[a]) && MergesPlain(D, D[a])
  }

  lemma {:induction false} InlinedIsExpand(D: Anchors, n: Node, d: nat)
    requires AllPlain(D) && KeysPlain(D, n) && MergesPlain(D, n)
    ensures Inlined(D, n, d) == Expand(D, n, d)
    decreases d, n, Width(n) + 1
  {
    match n
    case ScalarNode(_, _, _) =>
    case AliasNode(a) => if a in D && d > 0 { InlinedIsExpand(D, D[a], d - 1); }
    case _ => InlinedAllIsExpandAll(D, n, 0, d);
  }

  lemma {:induction false} InlinedAllIsExpandAll(D: Anchors, p: Node, i: nat, d: nat)
    requires Collection(p) && i <= |p.children| && AllPlain(D) && KeysPlain(D, p) && MergesPlain(D, p)
    ensures InlinedAll(D, p, i, d) == ExpandAll(D, p, i, d)
    decreases d, p, |p.children| - i
  {
    hide RefusedMerge, AliasedMerge;
    if i < |p.children| {
      InlinedIsExpand(D, p.children[i], d);
      InlinedAllIsExpandAll(D, p, i + 1, d);
    }
  }

  /**
   In a document where no merge value is an alias of a sequence and no key an alias of a merge key, decoding
   succeeds with a value exactly when writing every alias out ends and the tree that results decodes to it.
   */
  lemma DecodeInlinedIff(R: Resolver, D: Anchors, n: Node, v: Value)
    requires AllPlain(D) && KeysPlain(D, n) && MergesPlain(D, n)
    ensures Decode(R, D, n, {}) == Some(v) <==>
      exists d: nat :: Inlined(D, n, d).Some? && Decode(R, map[], Inlined(D, n, d).value, {}) == Some(v)
  {
    hide Decode, Expand, Inlined, KeysIn, MergesPlain;
    DecodeWrittenIff(R, D, map[], n, v);
    if Decode(R, D, n, {}) == Some(v) {
      var d: nat :| Expand(D, n, d).Some? && Decode(R, map[], Expand(D, n, d).value, {}) == Some(v);
      InlinedIsExpand(D, n, d);
      assert Inlined(D, n, d).Some? && Decode(R, map[], Inlined(D, n, d).value, {}) == Some(v);
    }
    if d: nat :| Inlined(D, n, d).Some? && Decode(R, map[], Inlined(D, n, d).value, {}) == Some(v) {
      InlinedIsExpand(D, n, d);
      assert Expand(D, n, d).Some? && Decode(R, map[], Expand(D, n, d).value, {}) == Some(v);
    }
  }

  /** The anchors a document is built with are never on aliases. */
  lemma {:induction false} AnchoredNotAlias(t: Tree)
    ensures forall i :: 0 <= i < |Anchored(t)| ==> !Anchored(t)[i].1.AliasNode?
    decreases t, 0
  {
    if !t.Leaf? {
      AnchoredAllNotAlias(t.items);
    }
  }

  lemma {:induction false} AnchoredAllNotAlias(ts: seq<Tree>)
    ensures forall i :: 0 <= i < |AnchoredAll(ts)| ==> !AnchoredAll(ts)[i].1.AliasNode?
    decreases ts, 0
  {
    if ts != [] {
      AnchoredNotAlias(ts[0]);
      AnchoredAllNotAlias(ts[1..]);
    }
  }

  lemma {:induction false} BoundNotAlias(m: Anchors, bs: seq<(Bytes, Node)>)
    requires forall a :: a in m ==> !m[a].AliasNode?
    requires forall i :: 0 <= i < |bs| ==> !bs[i].1.AliasNode?
    ensures forall a :: a in Bind(m, bs) ==> !Bind(m, bs)[a].AliasNode?
    decreases |bs|
  {
    if bs != [] {
      BoundNotAlias(m[bs[0].0 := bs[0].1], bs[1..]);
    }
  }

  lemma DocumentAnchors(t: Tree)
    ensures var D := Bind(map[], Anchored(t)); forall a :: a in D ==> !D[a].AliasNode?
  {
    AnchoredNotAlias(t);
    BoundNotAlias(map[], Anchored(t));
  }

  //
  // The decoder.
  //

  datatype Failure =
    | UnknownAnchor(name: Bytes)
    | SelfReference(name: Bytes)
    | InvalidKey
    | MergeWantsMap
    | OddMapping
    | BadScalar

  datatype Reply<+T> =
    | Good(value: T)
    | Failed(failure: Failure)
  {
    function Answer(): Option<T> {
      if Good? then Some(value) else None
    }
  }

  class Decoder {
    const resolve: Resolver
    const anchors: Anchors
    var aliases: set<Bytes>

    constructor (R: Resolver, D: Anchors)
      ensures resolve == R && anchors == D && aliases == {}
    {
      resolve := R;
      anchors := D;
      aliases := {};
    }

    /** A value, with the active aliases as they were; or a failure, after which the decoder is done with. */
    method Unmarshal(n: Node) returns (r: Reply<Value>)
      modifies this
      ensures r.Answer() == Decode(resolve, anchors, n, old(aliases))
      ensures r.Good? ==> aliases == old(aliases)
      decreases Idle(anchors, aliases), n, Width(n) + 1
    {
      hide DecodeItems, DecodePairs;
      match n {
        case ScalarNode(tag, value, implicit) =>
          var atom := resolve(tag, value, implicit);
          r := if atom.None? then Failed(BadScalar) else Good(AtomValue(atom.value));
        case AliasNode(name) =>
          r := Alias(n);
        case SequenceNode(_) =>
          var items := Sequence(n);
          r := if items.Failed? then Failed(items.failure) else Good(SequenceValue(items.value));
        case MappingNode(_) =>
          var m := Mapping(n, map[]);
          r := if m.Failed? then Failed(m.failure) else Good(MapValue(m.value));
      }
    }

    method Alias(n: Node) returns (r: Reply<Value>)
      requires n.AliasNode?
      modifies this
      ensures r.Answer() == Decode(resolve, anchors, n, old(aliases))
      ensures r.Good? ==> aliases == old(aliases)
      decreases Idle(anchors, aliases), n, Width(n)
    {
      var a := n.name;
      if a !in anchors {
        return Failed(UnknownAnchor(a));
      }
      if a in aliases {
        return Failed(SelfReference(a));
      }
      Busier(anchors, aliases, a);
      aliases := aliases + {a};
      r := Unmarshal(anchors[a]);
      aliases := aliases - {a};
    }

    method Sequence(n: Node) returns (r: Reply<seq<Value>>)
      requires n.SequenceNode?
      modifies this
      ensures r.Answer() == DecodeItems(resolve, anchors, n, 0, old(aliases))
      ensures r.Good? ==> aliases == old(aliases)
      decreases Idle(anchors, aliases), n, Width(n)
    {
      hide Decode;
      var out: seq<Value> := [];
      ghost var whole := DecodeItems(resolve, anchors, n, 0, aliases);
      PrependNone(whole);
      for i := 0 to |n.children|
        invariant aliases == old(aliases)
        invariant whole == Prepended(out, DecodeItems(resolve, anchors, n, i, aliases))
      {
        var v := Unmarshal(n.children[i]);
        if v.Failed? {
          return Failed(v.failure);
        }
        PrependOne(out, v.value, DecodeItems(resolve, anchors, n, i + 1, aliases));
        out := out + [v.value];
      }
      assert out + [] == out;
      return Good(out);
    }

    /** Adds the entries of a mapping to those a map has already. */
    method Mapping(n: Node, start: map<Value, Value>) returns (r: Reply<map<Value, Value>>)
      requires n.MappingNode?
      modifies this
      ensures r.Answer() == DecodePairs(resolve, anchors, n, 0, start, old(aliases))
      ensures r.Good? ==> aliases == old(aliases)
      decreases Idle(anchors, aliases), n, Width(n)
    {
      hide Decode, DecodeMerge, IsMerge;
      var out := start;
      var i := 0;
      while i < |n.children|
        invariant 0 <= i <= |n.children| && aliases == old(aliases)
        invariant DecodePairs(resolve, anchors, n, i, out, aliases) == DecodePairs(resolve, anchors, n, 0, start, aliases)
        decreases |n.children| - i
      {
        if i + 1 == |n.children| {
          return Failed(OddMapping);
        }
        if IsMerge(n.children[i]) {
          var merged := Merge(n.children[i + 1], out);
          if merged.Failed? {
            return merged;
          }
          out := merged.value;
        } else {
          var k := Unmarshal(n.children[i]);
          if k.Failed? {
            return Failed(k.failure);
          }
          if !k.value.AtomValue? {
            return Failed(InvalidKey);
          }
          var e := Unmarshal(n.children[i + 1]);
          if e.Failed? {
            return Failed(e.failure);
          }
          out := out[k.value := e.value];
        }
        i := i + 2;
      }
      return Good(out);
    }

    method Merge(n: Node, start: map<Value, Value>) returns (r: Reply<map<Value, Value>>)
      modifies this
      ensures r.Answer() == DecodeMerge(resolve, anchors, n, start, old(aliases))
      ensures r.Good? ==> aliases == old(aliases)
      decreases Idle(anchors, aliases), n, Width(n) + 2
    {
      hide Decode, DecodeMergeOne, DecodePairs;
      if !n.SequenceNode? {
        r := MergeOne(n, start);
        return;
      }
      var out := start;
      var i := |n.children|;
      while i > 0
        invariant 0 <= i <= |n.children| && aliases == old(aliases)
        invariant DecodeMergeItems(resolve, anchors, n, i, out, aliases)
               == DecodeMergeItems(resolve, anchors, n, |n.children|, start, aliases)
      {
        i := i - 1;
        var merged := MergeOne(n.children[i], out);
        if merged.Failed? {
          return merged;
        }
        out := merged.value;
      }
      return Good(out);
    }

    method MergeOne(n: Node, start: map<Value, Value>) returns (r: Reply<map<Value, Value>>)
      modifies this
      ensures r.Answer() == DecodeMergeOne(resolve, anchors, n, start, old(aliases))
      ensures r.Good? ==> aliases == old(aliases)
      decreases Idle(anchors, aliases), n, Width(n) + 1
    {
      hide Decode, DecodePairs;
      if n.MappingNode? {
        r := Mapping(n, start);
      } else if n.AliasNode? {
        var a := n.name;
        if a !in anchors {
          return Failed(UnknownAnchor(a));
        }
        if !anchors[a].MappingNode? {
          return Failed(MergeWantsMap);
        }
        if a in aliases {
          return Failed(SelfReference(a));
        }
        Busier(anchors, aliases, a);
        aliases := aliases + {a};
        r := Mapping(anchors[a], start);
        aliases := aliases - {a};
      } else {
        r := Failed(MergeWantsMap);
      }
    }
  }

  ghost function Prepended(out: seq<Value>, rest: Option<seq<Value>>): Option<seq<Value>> {
    match rest case None => None case Some(vs) => Some(out + vs)
  }

  lemma PrependNone(rest: Option<seq<Value>>)
    ensures Prepended([], rest) == rest
  {
    assert rest.Some? ==> [] + rest.value == rest.value;
  }

  lemma PrependOne(out: seq<Value>, v: Value, rest: Option<seq<Value>>)
    ensures Prepended(out + [v], rest) == Prepended(out, Prepended([v], rest))
  {
    assert rest.Some? ==> out + [v] + rest.value == out + ([v] + rest.value);
  }

  //
  // Where writing an alias out would change what the decoder does.
  //

  /** A merge value that is an alias of a sequence of mappings is refused; the same sequence in place is taken. */
  lemma AliasedSequenceMerge(R: Resolver)
    ensures exists D: Anchors, a: Bytes ::
      && CleanAnchors(D, map[]) && a in D
      && Decode(R, D, MappingNode([ScalarNode([], MERGE_KEY, true), AliasNode(a)]), {}).None?
      && Decode(R, D, MappingNode([ScalarNode([], MERGE_KEY, true), D[a]]), {}).Some?
  {
    var a: Bytes := [97];
    var source := MappingNode([]);
    var list := SequenceNode([source]);
    var D: Anchors := map[a := list];
    var key := ScalarNode([], MERGE_KEY, true);
    assert IsMerge(key);
    var p, q := MappingNode([key, AliasNode(a)]), MappingNode([key, list]);
    assert DecodeMerge(R, D, AliasNode(a), map[], {}).None?;
    assert DecodePairs(R, D, p, 0, map[], {}).None?;
    assert DecodePairs(R, D, source, 0, map[], {}) == Some(map[]);
    assert DecodeMergeOne(R, D, source, map[], {}) == Some(map[]);
    assert DecodeMergeItems(R, D, list, 0, map[], {}) == Some(map[]);
    assert DecodeMergeItems(R, D, list, 1, map[], {}) == Some(map[]);
    assert DecodeMerge(R, D, list, map[], {}) == Some(map[]);
    assert DecodePairs(R, D, q, 2, map[], {}) == Some(map[]);
    assert DecodePairs(R, D, q, 0, map[], {}) == Some(map[]);
    assert CleanAnchors(D, map[]) && a in D && D[a] == list;
  }

  /** An alias of the text of a merge key is an ordinary key; the text in place is a merge key. */
  lemma AliasedMergeKey(R: Resolver)
    requires R([], MERGE_KEY, true).Some?
    ensures exists D: Anchors, a: Bytes ::
      && a in D
      && Decode(R, D, MappingNode([AliasNode(a), D[a]]), {}).Some?
      && Decode(R, D, MappingNode([D[a], D[a]]), {}).None?
  {
    var a: Bytes := [97];
    var key := ScalarNode([], MERGE_KEY, true);
    var D: Anchors := map[a := key];
    var v := AtomValue(R([], MERGE_KEY, true).value);
    var p, q := MappingNode([AliasNode(a), key]), MappingNode([key, key]);
    assert IsMerge(key);
    assert Decode(R, D, key, {a}) == Some(v) && Decode(R, D, key, {}) == Some(v);
    assert {} + {a} == {a};
    Busier(D, {}, a);
    assert Decode(R, D, AliasNode(a), {}) == Some(v);
    assert DecodePairs(R, D, p, 2, map[v := v], {}) == Some(map[v := v]);
    assert DecodePairs(R, D, p, 0, map[], {}).Some?;
    assert DecodeMerge(R, D, key, map[], {}).None?;
    assert DecodePairs(R, D, q, 0, map[], {}).None?;
  }
}
