/**
 * Metrics as finite maps from label names to values, the order they are
 * sorted by, and the merging of a label set into one.
 */
module Metrics {
  import opened Wrappers

  type Metric = map<Bytes, Bytes>

  // ---------------------------------------------------------------- strings

  /** The order of strings: by the first differing byte, a proper prefix first. */
  predicate Less(a: Bytes, b: Bytes) {
    if b == [] then false
    else if a == [] then true
    else a[0] < b[0] || (a[0] == b[0] && Less(a[1..], b[1..]))
  }

  lemma {:induction false} LessTotal(a: Bytes, b: Bytes)
    ensures a == b || Less(a, b) || Less(b, a)
    ensures !(Less(a, b) && Less(b, a))
    ensures !Less(a, a)
    decreases |a|
  {
    if a != [] {
      LessTotal(a[1..], a[1..]);
    }
    if a != [] && b != [] && a[0] == b[0] {
      LessTotal(a[1..], b[1..]);
      assert a == [a[0]] + a[1..] && b == [b[0]] + b[1..];
    }
  }

  lemma {:induction false} LessTrans(a: Bytes, b: Bytes, c: Bytes)
    requires Less(a, b) && Less(b, c)
    ensures Less(a, c)
    decreases |a|
  {
    if a != [] && a[0] == b[0] && b[0] == c[0] {
      LessTrans(a[1..], b[1..], c[1..]);
    }
  }

  // ---------------------------------------------------------------- the order of metrics

  function At(m: Metric, k: Bytes): Option<Bytes> {
    if k in m then Some(m[k]) else None
  }

  /** A label that is absent comes before any value. */
  predicate ValueLess(a: Option<Bytes>, b: Option<Bytes>) {
    b.Some? && (a.None? || Less(a.value, b.value))
  }

  /** The least label at which two metrics differ. */
  ghost predicate FirstDifference(m: Metric, o: Metric, k: Bytes) {
    At(m, k) != At(o, k) && forall l :: Less(l, k) ==> At(m, l) == At(o, l)
  }

  /** Fewer labels first; with as many, the first difference decides. */
  ghost predicate Precedes(m: Metric, o: Metric) {
    |m| < |o| ||
    (|m| == |o| && exists k :: FirstDifference(m, o, k) && ValueLess(At(m, k), At(o, k)))
  }

  lemma ValueLessTotal(a: Option<Bytes>, b: Option<Bytes>)
    ensures a == b || ValueLess(a, b) || ValueLess(b, a)
    ensures !(ValueLess(a, b) && ValueLess(b, a))
  {
    if a.Some? && b.Some? {
      LessTotal(a.value, b.value);
    }
  }

  lemma ValueLessTrans(a: Option<Bytes>, b: Option<Bytes>, c: Option<Bytes>)
    requires ValueLess(a, b) && ValueLess(b, c)
    ensures ValueLess(a, c)
  {
    if a.Some? {
      LessTrans(a.value, b.value, c.value);
    }
  }

  lemma FirstIsUnique(m: Metric, o: Metric, k: Bytes, l: Bytes)
    requires FirstDifference(m, o, k) && (FirstDifference(m, o, l) || FirstDifference(o, m, l))
    ensures k == l
  {
    LessTotal(k, l);
  }

  lemma {:induction false} LeastOf(s: set<Bytes>) returns (least: Bytes)
    requires s != {}
    ensures least in s && forall l :: l in s ==> !Less(l, least)
    decreases |s|
  {
    var x :| x in s;
    LessTotal(x, x);
    var rest := s - {x};
    assert forall l :: l in s ==> l == x || l in rest;
    if rest == {} {
      least := x;
    } else {
      var y := LeastOf(rest);
      LessTotal(x, y);
      if Less(x, y) {
        least := x;
        forall l | l in s ensures !Less(l, x) {
          if Less(l, x) { LessTrans(l, x, y); }
        }
      } else {
        least := y;
      }
    }
  }

  lemma SameEverywhere(m: Metric, o: Metric)
    requires forall l :: At(m, l) == At(o, l)
    ensures m == o
  {
    assert forall l :: l in m ==> At(m, l) == At(o, l);
    assert forall l :: l in o ==> At(m, l) == At(o, l);
  }

  lemma DifferenceExists(m: Metric, o: Metric) returns (k: Bytes)
    requires m != o
    ensures FirstDifference(m, o, k)
  {
    var differing := set l | l in m.Keys + o.Keys && At(m, l) != At(o, l);
    assert exists l :: At(m, l) != At(o, l) by {
      if forall l :: At(m, l) == At(o, l) {
        SameEverywhere(m, o);
      }
    }
    var l :| At(m, l) != At(o, l);
    assert l in differing;
    k := LeastOf(differing);
    assert forall l :: At(m, l) != At(o, l) ==> l in differing;
  }

  /** The order is strict and total: of two different metrics exactly one precedes the other. */
  lemma PrecedesTotal(m: Metric, o: Metric)
    ensures !Precedes(m, m)
    ensures m != o ==> Precedes(m, o) || Precedes(o, m)
    ensures !(Precedes(m, o) && Precedes(o, m))
  {
    if m != o && |m| == |o| {
      var k := DifferenceExists(m, o);
      assert FirstDifference(o, m, k);
      ValueLessTotal(At(m, k), At(o, k));
    }
    if Precedes(m, o) && Precedes(o, m) {
      var k :| FirstDifference(m, o, k) && ValueLess(At(m, k), At(o, k));
      var l :| FirstDifference(o, m, l) && ValueLess(At(o, l), At(m, l));
      FirstIsUnique(m, o, k, l);
      ValueLessTotal(At(m, k), At(o, k));
    }
  }

  /** The strings agree up to `i`, where the first ends or has the lesser byte. */
  ghost predicate LessAt(a: Bytes, b: Bytes, i: nat) {
    i < |b| && i <= |a| && a[..i] == b[..i] && (i == |a| || a[i] < b[i])
  }

  lemma {:induction false} LessThere(a: Bytes, b: Bytes, i: nat)
    requires LessAt(a, b, i)
    ensures Less(a, b)
    decreases i
  {
    if i > 0 {
      assert a[0] == a[..i][0] == b[..i][0] == b[0];
      assert a[1..][..i - 1] == a[..i][1..] == b[..i][1..] == b[1..][..i - 1];
      LessThere(a[1..], b[1..], i - 1);
    }
  }

  lemma {:induction false} LessSomewhere(a: Bytes, b: Bytes) returns (i: nat)
    requires Less(a, b)
    ensures LessAt(a, b, i)
    decreases |a|
  {
    i := 0;
    if a != [] && a[0] == b[0] {
      var j := LessSomewhere(a[1..], b[1..]);
      i := j + 1;
      assert a[..i] == [a[0]] + a[1..][..j] && b[..i] == [b[0]] + b[1..][..j];
    }
  }

  /** Strings are compared at the first byte after their longest common beginning. */
  lemma LessIff(a: Bytes, b: Bytes)
    ensures Less(a, b) <==> exists i: nat :: LessAt(a, b, i)
  {
    if Less(a, b) {
      var i := LessSomewhere(a, b);
    }
    if i: nat :| LessAt(a, b, i) {
      LessThere(a, b, i);
    }
  }

  /** Fewer labels come first, whatever they are. */
  lemma FewerFirst(m: Metric, o: Metric)
    requires |m| < |o|
    ensures Precedes(m, o) && !Precedes(o, m)
  {
  }

  /** Of two metrics that differ in the value of one label the one with the lesser value comes first. */
  lemma LesserFirst(m: Metric, k: Bytes, v: Bytes, w: Bytes)
    requires Less(v, w)
    ensures Precedes(m[k := v], m[k := w]) && !Precedes(m[k := w], m[k := v])
  {
    var a, b := m[k := v], m[k := w];
    LessTotal(v, w);
    assert a.Keys == b.Keys && |a| == |a.Keys| && |b| == |b.Keys|;
    forall l | Less(l, k) ensures At(a, l) == At(b, l) {
      LessTotal(k, k);
    }
    assert FirstDifference(a, b, k);
    PrecedesTotal(a, b);
  }

  /** Of two metrics with as many labels the one that lacks the least label they do not share comes first. */
  lemma AbsentFirst(m: Metric, o: Metric, k: Bytes)
    requires |m| == |o| && k !in m && k in o && forall l :: Less(l, k) ==> At(m, l) == At(o, l)
    ensures Precedes(m, o) && !Precedes(o, m)
  {
    assert FirstDifference(m, o, k);
    PrecedesTotal(m, o);
  }

  lemma PrecedesTrans(a: Metric, b: Metric, c: Metric)
    requires Precedes(a, b) && Precedes(b, c)
    ensures Precedes(a, c)
  {
    if |a| == |b| && |b| == |c| {
      var k :| FirstDifference(a, b, k) && ValueLess(At(a, k), At(b, k));
      var l :| FirstDifference(b, c, l) && ValueLess(At(b, l), At(c, l));
      LessTotal(k, l);
      var first := if Less(l, k) then l else k;
      if k == l {
        ValueLessTrans(At(a, k), At(b, k), At(c, k));
      }
      assert ValueLess(At(a, first), At(c, first));
      ValueLessTotal(At(a, first), At(a, first));
      forall x | Less(x, first) ensures At(a, x) == At(c, x) {
        if first == l {
          if l != k { LessTrans(x, l, k); }
        } else {
          LessTrans(x, k, l);
        }
      }
      assert FirstDifference(a, c, first);
    }
  }

  // ---------------------------------------------------------------- comparing by a sorted list of names

  ghost predicate Ordered(names: seq<Bytes>) {
    forall i, j :: 0 <= i < j < |names| ==> !Less(names[j], names[i])
  }

  /** The names of a map, in any order. */
  method Names(m: Metric) returns (names: seq<Bytes>)
    ensures forall x :: x in names <==> x in m
  {
    names := [];
    var left := m.Keys;
    while left != {}
      invariant left <= m.Keys
      invariant forall x :: x in names <==> x in m.Keys - left
      decreases |left|
    {
      var x :| x in left;
      left := left - {x};
      names := names + [x];
    }
  }

  method SortNames(names: seq<Bytes>) returns (r: seq<Bytes>)
    ensures Ordered(r)
    ensures forall x :: x in r <==> x in names
  {
    r := [];
    for i := 0 to |names|
      invariant Ordered(r)
      invariant forall x :: x in r <==> x in names[..i]
    {
      var k := |r|;
      while k > 0 && Less(names[i], r[k - 1])
        invariant 0 <= k <= |r|
        invariant forall j :: k <= j < |r| ==> Less(names[i], r[j])
      {
        k := k - 1;
      }
      PutInOrder(r, k, names[i]);
      assert names[..i + 1] == names[..i] + [names[i]];
      r := r[..k] + [names[i]] + r[k..];
    }
    assert names[..|names|] == names;
  }

  lemma PutInOrder(r: seq<Bytes>, k: nat, x: Bytes)
    requires Ordered(r) && k <= |r|
    requires forall j :: k <= j < |r| ==> Less(x, r[j])
    requires k > 0 ==> !Less(x, r[k - 1])
    ensures Ordered(r[..k] + [x] + r[k..])
    ensures forall y :: y in r[..k] + [x] + r[k..] <==> y in r || y == x
  {
    var s := r[..k] + [x] + r[k..];
    assert r == r[..k] + r[k..];
    forall i, j | 0 <= i < j < |s| ensures !Less(s[j], s[i]) {
      if j == k {
        if Less(x, r[i]) && i < k - 1 {
          LessTotal(r[i], r[k - 1]);
          if r[i] != r[k - 1] { LessTrans(x, r[i], r[k - 1]); }
        }
      } else if i == k {
        LessTotal(x, r[j - 1]);
      }
    }
  }

  /** Scans the sorted, possibly repeating, names of both metrics for the first difference. */
  method Before(m: Metric, o: Metric) returns (r: bool)
    ensures r == Precedes(m, o)
  {
    if |m| < |o| {
      return true;
    }
    if |m| > |o| {
      return false;
    }
    var mine := Names(m);
    var theirs := Names(o);
    var names := SortNames(mine + theirs);
    for i := 0 to |names|
      invariant forall j :: 0 <= j < i ==> At(m, names[j]) == At(o, names[j])
    {
      var k := names[i];
      assert k in names && k in mine + theirs;
      if k in m && k in o {
        LessTotal(m[k], o[k]);
      }
      if At(m, k) != At(o, k) {
        FoundFirst(m, o, names, i);
      }
      if k !in m {
        return true;
      }
      if k !in o {
        return false;
      }
      if Less(m[k], o[k]) {
        return true;
      }
      if Less(o[k], m[k]) {
        return false;
      }
    }
    NoDifference(m, o, names);
    PrecedesTotal(m, o);
    return false;
  }

  lemma NoDifference(m: Metric, o: Metric, names: seq<Bytes>)
    requires forall x :: x in m || x in o ==> x in names
    requires forall j :: 0 <= j < |names| ==> At(m, names[j]) == At(o, names[j])
    ensures m == o
  {
    assert forall x :: x in names ==> At(m, x) == At(o, x);
    SameEverywhere(m, o);
  }

  /** The first difference in the sorted list is the least there is, and decides the order. */
  lemma FoundFirst(m: Metric, o: Metric, names: seq<Bytes>, i: nat)
    requires |m| == |o| && Ordered(names) && i < |names|
    requires forall x :: x in m || x in o ==> x in names
    requires forall j :: 0 <= j < i ==> At(m, names[j]) == At(o, names[j])
    requires At(m, names[i]) != At(o, names[i])
    ensures FirstDifference(m, o, names[i])
    ensures Precedes(m, o) <==> ValueLess(At(m, names[i]), At(o, names[i]))
  {
    var k := names[i];
    forall l | Less(l, k) ensures At(m, l) == At(o, l) {
      if l in m || l in o {
        var j :| 0 <= j < |names| && names[j] == l;
        LessTotal(k, k);
        assert j < i;
      }
    }
    if Precedes(m, o) {
      var l :| FirstDifference(m, o, l) && ValueLess(At(m, l), At(o, l));
      FirstIsUnique(m, o, k, l);
    }
  }

  // ---------------------------------------------------------------- samples

  datatype Sample = Sample(metric: Metric, timestamp: int, value: real)

  /** By metric, then by time. */
  ghost predicate SampleLess(a: Sample, b: Sample) {
    Precedes(a.metric, b.metric) || (!Precedes(b.metric, a.metric) && a.timestamp < b.timestamp)
  }

  method LessThan(samples: seq<Sample>, i: nat, j: nat) returns (r: bool)
    requires i < |samples| && j < |samples|
    ensures r == SampleLess(samples[i], samples[j])
  {
    var before := Before(samples[i].metric, samples[j].metric);
    if before {
      return true;
    }
    var after := Before(samples[j].metric, samples[i].metric);
    if after {
      return false;
    }
    return samples[i].timestamp < samples[j].timestamp;
  }

  /** Of two samples of one metric the earlier comes first; of two metrics the times do not matter. */
  lemma EarlierFirst(a: Sample, b: Sample)
    ensures a.metric == b.metric && a.timestamp < b.timestamp ==> SampleLess(a, b) && !SampleLess(b, a)
    ensures Precedes(a.metric, b.metric) ==> SampleLess(a, b) && !SampleLess(b, a)
  {
    hide Precedes;
    PrecedesTotal(a.metric, b.metric);
    PrecedesTotal(a.metric, a.metric);
  }

  /** Neither of two samples comes first exactly when they have the same metric and time. */
  lemma SampleTies(a: Sample, b: Sample)
    ensures !SampleLess(a, b) && !SampleLess(b, a) <==> a.metric == b.metric && a.timestamp == b.timestamp
    ensures !(SampleLess(a, b) && SampleLess(b, a))
    ensures !SampleLess(a, a)
  {
    hide Precedes;
    PrecedesTotal(a.metric, b.metric);
    PrecedesTotal(a.metric, a.metric);
  }

  /** The order of samples is transitive, so sorting by it is well defined up to ties. */
  lemma SampleLessTrans(a: Sample, b: Sample, c: Sample)
    requires SampleLess(a, b) && SampleLess(b, c)
    ensures SampleLess(a, c)
  {
    hide Precedes;
    PrecedesTotal(a.metric, b.metric);
    PrecedesTotal(b.metric, c.metric);
    if Precedes(a.metric, b.metric) && Precedes(b.metric, c.metric) {
      PrecedesTrans(a.metric, b.metric, c.metric);
    }
  }

  // ---------------------------------------------------------------- merging labels

  /** A name with the prefix put before it so many times. */
  function Prefixed(prefix: Bytes, k: Bytes, times: nat): Bytes {
    if times == 0 then k else prefix + Prefixed(prefix, k, times - 1)
  }

  function Copies(prefix: Bytes, times: nat): Bytes {
    if times == 0 then [] else Copies(prefix, times - 1) + prefix
  }

  /** The name is still at the end, behind as many copies of the prefix. */
  lemma {:induction false} PrefixedMeans(prefix: Bytes, k: Bytes, times: nat)
    ensures Prefixed(prefix, k, times) == Copies(prefix, times) + k
    decreases times
  {
    if times > 0 {
      PrefixedMeans(prefix, prefix + k, times - 1);
      Inwards(prefix, k, times - 1);
    }
  }

  lemma {:induction false} Inwards(prefix: Bytes, k: Bytes, times: nat)
    ensures prefix + Prefixed(prefix, k, times) == Prefixed(prefix, prefix + k, times)
    decreases times
  {
    if times > 0 {
      Inwards(prefix, k, times - 1);
    }
  }

  /** Names at least that long: fewer of them are left each time a name is prefixed. */
  ghost function Longer(m: Metric, n: nat): set<Bytes> {
    set x | x in m.Keys && |x| >= n
  }

  /** The first name that is free when the prefix is put before it again and again. */
  method FreeName(m: Metric, k: Bytes, prefix: Bytes) returns (name: Bytes, ghost times: nat)
    requires prefix != []
    ensures name !in m && name == Prefixed(prefix, k, times)
    ensures forall t :: 0 <= t < times ==> Prefixed(prefix, k, t) in m
  {
    name, times := k, 0;
    while name in m
      invariant name == Prefixed(prefix, k, times)
      invariant forall t :: 0 <= t < times ==> Prefixed(prefix, k, t) in m
      decreases Longer(m, |name|)
    {
      assert name in Longer(m, |name|) && name !in Longer(m, |prefix + name|);
      assert Longer(m, |prefix + name|) < Longer(m, |name|);
      name := prefix + name;
      times := times + 1;
    }
  }

  /** The value is in the map under the name prefixed some number of times. */
  ghost predicate Carried(m: Metric, k: Bytes, v: Bytes, prefix: Bytes) {
    exists t: nat :: Prefixed(prefix, k, t) in m && m[Prefixed(prefix, k, t)] == v
  }

  /** What holds when the labels in `done` have been merged. */
  ghost predicate Merged(m0: Metric, m: Metric, labels: Metric, done: set<Bytes>, prefix: Bytes)
    requires done <= labels.Keys
  {
    if prefix == [] then m == m0 + (map k | k in done :: labels[k])
    else Beside(m0, m, labels, done, prefix)
  }

  ghost predicate Beside(m0: Metric, m: Metric, labels: Metric, done: set<Bytes>, prefix: Bytes)
    requires done <= labels.Keys
  {
    && (forall k :: k in m0 ==> k in m && m[k] == m0[k])
    && (forall k :: k in done ==> Carried(m, k, labels[k], prefix))
    && |m.Keys| == |m0.Keys| + |done|
  }

  /**
   * With a prefix nothing is lost: every label there was keeps its value and
   * every label merged in has its value under its own or a prefixed name.
   * Without one, the labels merged in win.
   */
  method MergeFromLabelSet(m0: Metric, labels: Metric, prefix: Bytes) returns (m: Metric)
    ensures prefix == [] ==> m == m0 + labels
    ensures prefix != [] ==> forall k :: k in m0 ==> k in m && m[k] == m0[k]
    ensures prefix != [] ==> forall k :: k in labels ==> Carried(m, k, labels[k], prefix)
    ensures prefix != [] ==> |m| == |m0| + |labels|
  {
    hide Merged, Carried;
    m := m0;
    var left := labels.Keys;
    NothingMerged(m0, labels, prefix);
    while left != {}
      invariant left <= labels.Keys
      invariant Merged(m0, m, labels, labels.Keys - left, prefix)
      decreases |left|
    {
      var k :| k in left;
      var name := k;
      ghost var times := 0;
      if prefix != [] {
        name, times := FreeName(m, k, prefix);
      }
      MergeOneMore(m0, m, labels, labels.Keys - left, prefix, k, name, times);
      m := m[name := labels[k]];
      assert labels.Keys - (left - {k}) == labels.Keys - left + {k};
      left := left - {k};
    }
    assert labels.Keys - left == labels.Keys;
    AllMerged(m0, m, labels, prefix);
  }

  lemma NothingMerged(m0: Metric, labels: Metric, prefix: Bytes)
    ensures labels.Keys - labels.Keys == {} && Merged(m0, m0, labels, {}, prefix)
  {
  }

  lemma AllMerged(m0: Metric, m: Metric, labels: Metric, prefix: Bytes)
    requires Merged(m0, m, labels, labels.Keys, prefix)
    ensures prefix == [] ==> m == m0 + labels
    ensures prefix != [] ==> forall k :: k in m0 ==> k in m && m[k] == m0[k]
    ensures prefix != [] ==> forall k :: k in labels ==> Carried(m, k, labels[k], prefix)
    ensures prefix != [] ==> |m| == |m0| + |labels|
  {
    hide Carried;
    MapSize(m);
    MapSize(m0);
    MapSize(labels);
    assert (map k | k in labels.Keys :: labels[k]) == labels;
  }

  lemma MapSize(m: Metric)
    ensures |m| == |m.Keys|
  {
  }

  lemma MergeOneMore(m0: Metric, m: Metric, labels: Metric, done: set<Bytes>, prefix: Bytes, k: Bytes, name: Bytes, times: nat)
    requires done <= labels.Keys && k in labels && k !in done && Merged(m0, m, labels, done, prefix)
    requires name == Prefixed(prefix, k, times)
    requires if prefix == [] then name == k else name !in m
    ensures Merged(m0, m[name := labels[k]], labels, done + {k}, prefix)
  {
    hide Prefixed, Carried, Beside;
    if prefix == [] {
      MergedOver(m0, m, labels, done, k);
    } else {
      MergedBeside(m0, m, labels, done, prefix, k, name, times);
    }
  }

  lemma MergedOver(m0: Metric, m: Metric, labels: Metric, done: set<Bytes>, k: Bytes)
    requires done <= labels.Keys && k in labels && m == m0 + (map x | x in done :: labels[x])
    ensures m[k := labels[k]] == m0 + (map x | x in done + {k} :: labels[x])
  {
  }

  lemma MergedBeside(m0: Metric, m: Metric, labels: Metric, done: set<Bytes>, prefix: Bytes, k: Bytes, name: Bytes, times: nat)
    requires done <= labels.Keys && k in labels && k !in done && prefix != []
    requires Beside(m0, m, labels, done, prefix)
    requires name == Prefixed(prefix, k, times) && name !in m
    ensures Beside(m0, m[name := labels[k]], labels, done + {k}, prefix)
  {
    hide Prefixed, Carried;
    var r := m[name := labels[k]];
    AllCarried(m, labels, done, prefix, k, name, times);
    OneMore(m, name, labels[k]);
  }

  lemma OneMore(m: Metric, name: Bytes, v: Bytes)
    requires name !in m
    ensures |m[name := v].Keys| == |m.Keys| + 1
    ensures forall k :: k in m ==> k in m[name := v] && m[name := v][k] == m[k]
  {
    assert m[name := v].Keys == m.Keys + {name};
  }

  lemma AllCarried(m: Metric, labels: Metric, done: set<Bytes>, prefix: Bytes, k: Bytes, name: Bytes, times: nat)
    requires done <= labels.Keys && k in labels && name == Prefixed(prefix, k, times) && name !in m
    requires forall x :: x in done ==> Carried(m, x, labels[x], prefix)
    ensures forall x :: x in done + {k} ==> Carried(m[name := labels[k]], x, labels[x], prefix)
  {
    hide Prefixed, Carried;
    var r := m[name := labels[k]];
    NowCarried(r, k, prefix, times);
    forall x | x in done ensures Carried(r, x, labels[x], prefix) {
      StillCarried(m, name, labels[k], x, labels[x], prefix);
    }
  }

  lemma NowCarried(m: Metric, k: Bytes, prefix: Bytes, times: nat)
    requires Prefixed(prefix, k, times) in m
    ensures Carried(m, k, m[Prefixed(prefix, k, times)], prefix)
  {
  }

  lemma StillCarried(m: Metric, name: Bytes, v: Bytes, x: Bytes, w: Bytes, prefix: Bytes)
    requires name !in m
    ensures Carried(m, x, w, prefix) ==> Carried(m[name := v], x, w, prefix)
  {
    hide Prefixed;
    if Carried(m, x, w, prefix) {
      var t: nat :| Prefixed(prefix, x, t) in m && m[Prefixed(prefix, x, t)] == w;
      assert Prefixed(prefix, x, t) in m[name := v];
    }
  }
}
