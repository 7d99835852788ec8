/**
 * The streaming quantile summary behind the metrics: a buffer of observed
 * values that is sorted and merged into a compressed list of samples. Values
 * are real numbers and widths whole numbers; the compression function, which
 * decides how much may be forgotten, is arbitrary.
 */
module Quantile {

  datatype Sample = Sample(value: real, width: int, delta: real)

  /** The allowed error at a rank, given the number of values seen. */
  type ErrorBound = (int, int) -> real

  const BUFFER_SIZE: nat := 500

  // ---------------------------------------------------------------- what a summary promises

  ghost predicate Sorted(l: seq<Sample>) {
    forall i, j :: 0 <= i < j < |l| ==> l[i].value <= l[j].value
  }

  ghost predicate Weighted(l: seq<Sample>) {
    forall i :: 0 <= i < |l| ==> l[i].width >= 1
  }

  function Width(l: seq<Sample>): int {
    if l == [] then 0 else l[0].width + Width(l[1..])
  }

  /** The weight fed to the summary at or below a value: the rank of the value. */
  ghost function AtMost(fed: seq<Sample>, v: real): int {
    if fed == [] then 0 else (if fed[0].value <= v then fed[0].width else 0) + AtMost(fed[1..], v)
  }

  /** Up to and including every sample, the widths add up to no more than its rank. */
  ghost predicate RanksHold(l: seq<Sample>, before: int, fed: seq<Sample>) {
    l == [] ||
    (before + l[0].width <= AtMost(fed, l[0].value) && RanksHold(l[1..], before + l[0].width, fed))
  }

  ghost predicate Fed(fed: seq<Sample>, v: real) {
    exists i :: 0 <= i < |fed| && fed[i].value == v
  }

  /** The last sample is the largest value fed, and every sample is a value fed. */
  ghost predicate Spans(l: seq<Sample>, fed: seq<Sample>) {
    && (l == [] <==> fed == [])
    && (forall i :: 0 <= i < |l| ==> Fed(fed, l[i].value))
    && (l != [] ==> forall i :: 0 <= i < |fed| ==> fed[i].value <= l[|l| - 1].value)
  }

  ghost predicate Summarises(l: seq<Sample>, n: int, fed: seq<Sample>) {
    && Sorted(l) && Weighted(l) && Weighted(fed)
    && Width(l) == n && Width(fed) == n
    && RanksHold(l, 0, fed)
    && Spans(l, fed)
  }

  // ---------------------------------------------------------------- sums and ranks

  lemma {:induction false} WidthConcat(a: seq<Sample>, b: seq<Sample>)
    ensures Width(a + b) == Width(a) + Width(b)
    decreases |a|
  {
    if a == [] {
      assert a + b == b;
    } else {
      assert (a + b)[1..] == a[1..] + b;
      WidthConcat(a[1..], b);
    }
  }

  lemma {:induction false} AtMostSnoc(fed: seq<Sample>, s: Sample, v: real)
    ensures AtMost(fed + [s], v) == AtMost(fed, v) + if s.value <= v then s.width else 0
    decreases |fed|
  {
    if fed == [] {
      assert fed + [s] == [s] && [s][1..] == [];
    } else {
      assert (fed + [s])[1..] == fed[1..] + [s];
      AtMostSnoc(fed[1..], s, v);
    }
  }

  lemma {:induction false} AtMostMonotone(fed: seq<Sample>, v: real, w: real)
    requires Weighted(fed) && v <= w
    ensures 0 <= AtMost(fed, v) <= AtMost(fed, w)
    decreases |fed|
  {
    if fed != [] {
      AtMostMonotone(fed[1..], v, w);
    }
  }

  // ---------------------------------------------------------------- insertion

  function Inserted(l: seq<Sample>, i: nat, s: Sample): seq<Sample>
    requires i <= |l|
  {
    l[..i] + [s] + l[i..]
  }

  /** The place of a value: after everything at or below it. */
  ghost predicate Place(l: seq<Sample>, i: nat, v: real) {
    && i <= |l|
    && (forall k :: 0 <= k < i ==> l[k].value <= v)
    && (forall k :: i <= k < |l| ==> v < l[k].value)
  }

  lemma {:induction false} RanksShift(l: seq<Sample>, before: int, fed: seq<Sample>, s: Sample)
    requires RanksHold(l, before, fed) && forall k :: 0 <= k < |l| ==> s.value <= l[k].value
    ensures RanksHold(l, before + s.width, fed + [s])
    decreases |l|
  {
    if l != [] {
      AtMostSnoc(fed, s, l[0].value);
      RanksShift(l[1..], before + l[0].width, fed, s);
    }
  }

  lemma {:induction false} InsertRanks(l: seq<Sample>, before: int, fed: seq<Sample>, i: nat, s: Sample)
    requires RanksHold(l, before, fed) && Place(l, i, s.value) && Weighted(fed) && s.width >= 1
    requires before <= AtMost(fed, s.value)
    ensures RanksHold(Inserted(l, i, s), before, fed + [s])
    decreases i
  {
    var r := Inserted(l, i, s);
    if i == 0 {
      assert r == [s] + l && r[1..] == l;
      AtMostSnoc(fed, s, s.value);
      RanksShift(l, before, fed, s);
    } else {
      assert r[0] == l[0] && r[1..] == Inserted(l[1..], i - 1, s);
      AtMostSnoc(fed, s, l[0].value);
      AtMostMonotone(fed, l[0].value, s.value);
      InsertRanks(l[1..], before + l[0].width, fed, i - 1, s);
    }
  }

  lemma FedSnoc(fed: seq<Sample>, s: Sample)
    ensures Fed(fed + [s], s.value)
    ensures forall v :: Fed(fed, v) ==> Fed(fed + [s], v)
  {
    assert (fed + [s])[|fed|] == s;
    forall v | Fed(fed, v) ensures Fed(fed + [s], v) {
      var i :| 0 <= i < |fed| && fed[i].value == v;
      assert (fed + [s])[i].value == v;
    }
  }

  lemma InsertSpans(l: seq<Sample>, fed: seq<Sample>, i: nat, s: Sample)
    requires Sorted(l) && Spans(l, fed) && Place(l, i, s.value)
    ensures Spans(Inserted(l, i, s), fed + [s])
  {
    var r := Inserted(l, i, s);
    FedSnoc(fed, s);
    forall k | 0 <= k < |r| ensures Fed(fed + [s], r[k].value) {
      if k < i {
        assert r[k] == l[k];
      } else if k > i {
        assert r[k] == l[k - 1];
      }
    }
    var last := r[|r| - 1].value;
    assert s.value <= last && (l != [] ==> l[|l| - 1].value <= last);
  }

  lemma WidthOne(s: Sample)
    ensures Width([s]) == s.width
  {
    assert [s][1..] == [];
  }

  lemma InsertWidth(l: seq<Sample>, i: nat, s: Sample)
    requires i <= |l|
    ensures Width(Inserted(l, i, s)) == Width(l) + s.width
  {
    hide Width;
    assert l == l[..i] + l[i..];
    WidthConcat(l[..i], l[i..]);
    WidthConcat(l[..i], [s]);
    WidthConcat(l[..i] + [s], l[i..]);
    WidthOne(s);
  }

  lemma InsertSorted(l: seq<Sample>, i: nat, s: Sample)
    requires Sorted(l) && Weighted(l) && Place(l, i, s.value) && s.width >= 1
    ensures Sorted(Inserted(l, i, s)) && Weighted(Inserted(l, i, s))
  {
    var r := Inserted(l, i, s);
    assert forall k :: 0 <= k < |r| ==> r[k] == if k < i then l[k] else if k == i then s else l[k - 1];
  }

  lemma {:induction false} AtMostPositive(fed: seq<Sample>, v: real)
    requires Weighted(fed)
    ensures AtMost(fed, v) >= 0
  {
    AtMostMonotone(fed, v, v);
  }

  /** A sample put in its place keeps every promise, whatever its delta. */
  lemma InsertKeeps(l: seq<Sample>, n: int, fed: seq<Sample>, i: nat, s: Sample)
    requires Summarises(l, n, fed) && Place(l, i, s.value) && s.width >= 1
    ensures Summarises(Inserted(l, i, s), n + s.width, fed + [s])
  {
    hide RanksHold, Spans, Sorted, Width, Inserted, AtMost;
    InsertWidth(l, i, s);
    WidthConcat(fed, [s]);
    WidthOne(s);
    InsertSorted(l, i, s);
    AtMostPositive(fed, s.value);
    InsertRanks(l, 0, fed, i, s);
    InsertSpans(l, fed, i, s);
  }

  // ---------------------------------------------------------------- compression

  /** The sample at `i` absorbed by its successor. */
  function Absorbed(l: seq<Sample>, i: nat): (r: seq<Sample>)
    requires i + 1 < |l|
    ensures |r| == |l| - 1
  {
    var x := l[i + 1];
    l[..i] + ([x.(width := x.width + l[i].width)] + l[i + 2..])
  }

  lemma {:induction false} AbsorbRanks(l: seq<Sample>, before: int, fed: seq<Sample>, i: nat)
    requires RanksHold(l, before, fed) && i + 1 < |l|
    ensures RanksHold(Absorbed(l, i), before, fed)
    decreases i
  {
    var r := Absorbed(l, i);
    if i == 0 {
      assert l[1..][1..] == l[2..] == r[1..];
    } else {
      assert r[0] == l[0] && r[1..] == Absorbed(l[1..], i - 1);
      AbsorbRanks(l[1..], before + l[0].width, fed, i - 1);
    }
  }

  lemma AbsorbSpans(l: seq<Sample>, fed: seq<Sample>, i: nat)
    requires Spans(l, fed) && i + 1 < |l|
    ensures Spans(Absorbed(l, i), fed)
  {
    var r := Absorbed(l, i);
    assert r[|r| - 1].value == l[|l| - 1].value;
    forall k | 0 <= k < |r| ensures Fed(fed, r[k].value) {
      assert r[k].value == l[if k < i then k else k + 1].value;
    }
  }

  lemma AbsorbWidth(l: seq<Sample>, i: nat)
    requires i + 1 < |l|
    ensures Width(Absorbed(l, i)) == Width(l)
  {
    hide Width;
    var x := l[i + 1].(width := l[i + 1].width + l[i].width);
    assert l == l[..i] + l[i..];
    WidthConcat(l[..i], l[i..]);
    WidthDrop(l, i);
    WidthDrop(l, i + 1);
    WidthConcat(l[..i], [x] + l[i + 2..]);
    WidthConcat([x], l[i + 2..]);
    WidthOne(x);
  }

  lemma WidthDrop(l: seq<Sample>, k: nat)
    requires k < |l|
    ensures Width(l[k..]) == l[k].width + Width(l[k + 1..])
  {
    assert l[k..][1..] == l[k + 1..];
  }

  lemma AbsorbSorted(l: seq<Sample>, i: nat)
    requires Sorted(l) && Weighted(l) && i + 1 < |l|
    ensures Sorted(Absorbed(l, i)) && Weighted(Absorbed(l, i))
  {
    var r := Absorbed(l, i);
    assert forall k :: 0 <= k < |r| ==> r[k].value == l[if k < i then k else k + 1].value;
  }

  /** Absorbing any sample but the last, wanted or not, keeps every promise. */
  lemma AbsorbKeeps(l: seq<Sample>, n: int, fed: seq<Sample>, i: nat)
    requires Summarises(l, n, fed) && i + 1 < |l|
    ensures Summarises(Absorbed(l, i), n, fed)
  {
    hide RanksHold, Spans, Sorted, Width, Absorbed;
    AbsorbWidth(l, i);
    AbsorbSorted(l, i);
    AbsorbRanks(l, 0, fed, i);
    AbsorbSpans(l, fed, i);
  }

  // ---------------------------------------------------------------- sorting the buffer

  function Values(l: seq<Sample>): multiset<real> {
    if l == [] then multiset{} else multiset{l[0].value} + Values(l[1..])
  }

  /** A single observation, as the buffer holds it. */
  ghost predicate Observed(b: seq<Sample>) {
    forall i :: 0 <= i < |b| ==> b[i].width == 1 && b[i].delta == 0.0
  }

  lemma {:induction false} ValuesConcat(a: seq<Sample>, b: seq<Sample>)
    ensures Values(a + b) == Values(a) + Values(b)
    decreases |a|
  {
    if a == [] {
      assert a + b == b;
    } else {
      assert (a + b)[1..] == a[1..] + b;
      ValuesConcat(a[1..], b);
    }
  }

  lemma {:induction false} ValuesSize(l: seq<Sample>)
    ensures |Values(l)| == |l|
  {
    if l != [] {
      ValuesSize(l[1..]);
    }
  }

  lemma {:induction false} ObservedWidth(b: seq<Sample>)
    requires Observed(b)
    ensures Width(b) == |b|
  {
    if b != [] {
      ObservedWidth(b[1..]);
    }
  }

  /** Sorting by value. */
  method Sort(b: seq<Sample>) returns (r: seq<Sample>)
    ensures Sorted(r) && Values(r) == Values(b) && |r| == |b|
    ensures Observed(b) ==> Observed(r)
  {
    hide Values;
    r := [];
    for i := 0 to |b|
      invariant |r| == i && Sorted(r) && Values(r) == Values(b[..i])
      invariant Observed(b) ==> Observed(r)
    {
      var k := |r|;
      while k > 0 && r[k - 1].value > b[i].value
        invariant 0 <= k <= |r|
        invariant forall j :: k <= j < |r| ==> b[i].value <= r[j].value
      {
        k := k - 1;
      }
      SortStep(r, k, b, i);
      r := Inserted(r, k, b[i]);
    }
    assert b[..|b|] == b;
  }

  lemma SortStep(r: seq<Sample>, k: nat, b: seq<Sample>, i: nat)
    requires k <= |r| == i < |b| && Sorted(r) && Values(r) == Values(b[..i])
    requires forall j :: k <= j < |r| ==> b[i].value <= r[j].value
    requires k > 0 ==> r[k - 1].value <= b[i].value
    ensures Sorted(Inserted(r, k, b[i])) && Values(Inserted(r, k, b[i])) == Values(b[..i + 1])
    ensures Observed(b) && Observed(r) ==> Observed(Inserted(r, k, b[i]))
  {
    hide Values;
    InsertValues(r, k, b[i]);
    assert b[..i + 1] == b[..i] + [b[i]];
    ValuesConcat(b[..i], [b[i]]);
    ValuesOne(b[i]);
    var s := Inserted(r, k, b[i]);
    assert forall j :: 0 <= j < |s| ==> s[j] == if j < k then r[j] else if j == k then b[i] else r[j - 1];
    hide Inserted;
    assert forall j :: 0 <= j < k ==> r[j].value <= b[i].value;
  }

  lemma InsertValues(l: seq<Sample>, i: nat, s: Sample)
    requires i <= |l|
    ensures Values(Inserted(l, i, s)) == Values(l) + multiset{s.value}
  {
    hide Values;
    assert l == l[..i] + l[i..];
    ValuesConcat(l[..i], l[i..]);
    ValuesConcat(l[..i], [s]);
    ValuesConcat(l[..i] + [s], l[i..]);
    ValuesOne(s);
  }

  // ---------------------------------------------------------------- the summary

  function Floor(x: real): real {
    x.Floor as real
  }

  function Ceil(x: real): real {
    -((-x).Floor as real)
  }

  /** The wanted rank, rounded up, and half the error allowed there. */
  function LimitOf(f: ErrorBound, n: int, q: real): real {
    var t := Ceil(q * n as real);
    t + Ceil(f(n, t.Floor) / 2.0)
  }

  /** What is stored for a sample that goes in at `k`: at the end it is exact, elsewhere its rank may be off by the bound. */
  function Placed(f: ErrorBound, n: int, l: seq<Sample>, k: nat, s: Sample): Sample
    requires k <= |l|
  {
    if k == |l| then Sample(s.value, s.width, 0.0)
    else
      var delta := Floor(f(n, Width(l[..k]))) - 1.0;
      Sample(s.value, s.width, if delta < s.delta then s.delta else delta)
  }

  /** The successor may absorb the sample before it: the rank error stays within the bound. */
  predicate Absorbs(f: ErrorBound, n: int, l: seq<Sample>, i: nat)
    requires 0 < i < |l|
  {
    l[i - 1].width as real + l[i].width as real + l[i].delta <= f(n, Width(l[..i]) - 1)
  }

  /** Compression from the `i`-th sample down. */
  function Compressed(f: ErrorBound, n: int, l: seq<Sample>, i: nat): (r: seq<Sample>)
    requires i < |l|
    ensures 0 < |r| <= |l|
    decreases i
  {
    if i == 0 then l
    else if Absorbs(f, n, l, i) then Compressed(f, n, Absorbed(l, i - 1), i - 1)
    else Compressed(f, n, l, i - 1)
  }

  /** Whatever the bound, compression keeps every promise. */
  lemma {:induction false} CompressedKeeps(f: ErrorBound, n: int, l: seq<Sample>, i: nat, fed: seq<Sample>)
    requires i < |l| && Summarises(l, n, fed)
    ensures Summarises(Compressed(f, n, l, i), n, fed)
    decreases i
  {
    hide Summarises, Absorbed, Absorbs;
    if i > 0 {
      if Absorbs(f, n, l, i) {
        AbsorbKeeps(l, n, fed, i - 1);
        CompressedKeeps(f, n, Absorbed(l, i - 1), i - 1, fed);
      } else {
        CompressedKeeps(f, n, l, i - 1, fed);
      }
    }
  }

  class Summary {
    const bound: ErrorBound
    var n: int
    var l: seq<Sample>
    ghost var fed: seq<Sample>

    ghost predicate Valid()
      reads this
    {
      Summarises(l, n, fed)
    }

    constructor (f: ErrorBound)
      ensures Valid() && n == 0 && l == [] && fed == [] && bound == f
    {
      bound := f;
      n := 0;
      l := [];
      fed := [];
    }

    /** Merges a sorted batch in one pass, then compresses. */
    method Merge(samples: seq<Sample>)
      requires Valid() && Sorted(samples) && Weighted(samples)
      modifies this
      ensures Valid()
      ensures Values(fed) == old(Values(fed)) + Values(samples)
      ensures n == old(n) + Width(samples)
    {
      hide Summarises, Values, Width, Placed;
      var r := 0;
      var i := 0;
      SummaryFacts(l, n, fed);
      NoWidth();
      for k := 0 to |samples|
        invariant Valid() && 0 <= i <= |l| && Sorted(l) && r == Width(l[..i])
        invariant n == old(n) + Width(samples[..k])
        invariant Values(fed) == old(Values(fed)) + Values(samples[..k])
        invariant k < |samples| ==> forall j :: 0 <= j < i ==> l[j].value <= samples[k].value
      {
        r, i := PutInPlace(samples[k], i, r);
        SummaryFacts(l, n, fed);
        assert samples[..k + 1] == samples[..k] + [samples[k]];
        WidthConcat(samples[..k], [samples[k]]);
        WidthOne(samples[k]);
        ValuesConcat(samples[..k], [samples[k]]);
        ValuesOne(samples[k]);
      }
      assert samples[..|samples|] == samples;
      Compress();
    }

    /** Moves on to the place of one sample and puts it there. */
    method PutInPlace(s: Sample, from: nat, rank: int) returns (r: int, i: nat)
      requires Valid() && from <= |l| && s.width >= 1 && Sorted(l)
      requires rank == Width(l[..from])
      requires forall j :: 0 <= j < from ==> l[j].value <= s.value
      modifies this
      ensures Valid() && 0 < i <= |l| && n == old(n) + s.width
      ensures Place(old(l), i - 1, s.value)
      ensures l == Inserted(old(l), i - 1, Placed(bound, old(n), old(l), i - 1, s))
      ensures r == Width(l[..i])
      ensures Values(fed) == old(Values(fed)) + multiset{s.value}
      ensures forall j :: 0 <= j < i ==> l[j].value <= s.value
    {
      hide Summarises, Values, Width, Sorted;
      r, i := Seek(s.value, from, rank);
      var delta := 0.0;
      if i < |l| {
        delta := Floor(bound(n, r)) - 1.0;
        if delta < s.delta {
          delta := s.delta;
        }
      }
      var placed := Sample(s.value, s.width, delta);
      InsertKeeps(l, n, fed, i, placed);
      WidthUpTo(l, i, placed);
      ValuesConcat(fed, [placed]);
      ValuesOne(placed);
      l := Inserted(l, i, placed);
      fed := fed + [placed];
      n := n + s.width;
      r := r + s.width;
      i := i + 1;
    }

    /** Moves on past everything at or below the value, adding up the widths. */
    method Seek(v: real, from: nat, rank: int) returns (r: int, i: nat)
      requires from <= |l| && Sorted(l) && rank == Width(l[..from])
      requires forall j :: 0 <= j < from ==> l[j].value <= v
      ensures Place(l, i, v) && r == Width(l[..i])
    {
      hide Width;
      i, r := from, rank;
      while i < |l| && l[i].value <= v
        invariant i <= |l| && r == Width(l[..i])
        invariant forall j :: 0 <= j < i ==> l[j].value <= v
      {
        WidthTaken(l, i);
        r := r + l[i].width;
        i := i + 1;
      }
    }

    /** From the top down, a sample is absorbed by its successor where the bound allows. */
    method Compress()
      requires Valid()
      modifies this`l
      ensures Valid()
      ensures l == if |old(l)| < 2 then old(l) else Compressed(bound, n, old(l), |old(l)| - 1)
    {
      hide Summarises, Absorbed, Width;
      if |l| < 2 {
        return;
      }
      SummaryFacts(l, n, fed);
      WidthTaken(l, |l| - 1);
      assert l[..|l|] == l;
      var x := l[|l| - 1];
      var xi := |l| - 1;
      var r := n - 1 - x.width;
      var i := |l| - 2;
      while i >= 0
        invariant Valid() && -1 <= i && xi == i + 1 < |l| && x == l[xi] && r == Width(l[..i + 1]) - 1
        invariant Compressed(bound, n, l, i + 1) == Compressed(bound, n, old(l), |old(l)| - 1)
        decreases i
      {
        var c := l[i];
        WidthTaken(l, i);
        if c.width as real + x.width as real + x.delta <= bound(n, r) {
          AbsorbKeeps(l, n, fed, i);
          x := x.(width := x.width + c.width);
          AbsorbedIs(l, i, x);
          assert Absorbs(bound, n, l, i + 1);
          l := l[xi := x];
          l := l[..i] + l[i + 1..];
          xi := xi - 1;
        } else {
          x := c;
          xi := i;
        }
        r := r - c.width;
        i := i - 1;
      }
    }

    function Limit(q: real): real
      reads this
    {
      LimitOf(bound, n, q)
    }

    /** The value at the first sample whose successor could lie past the wanted rank, or the last value. */
    method Query(q: real) returns (v: real)
      requires Valid() && l != []
      ensures exists k :: 0 <= k < |l| && v == l[k].value && StopsAt(l, k, Limit(q))
      ensures Fed(fed, v)
    {
      hide Summarises, Width, Limit, Spans, Fed;
      NoWidth();
      var limit := Limit(q);
      var p := l[0];
      var r := 0;
      var k := 0;
      while k + 1 < |l|
        invariant 0 <= k < |l| && p == l[k] && r == Width(l[..k])
        invariant forall j :: 0 <= j < k ==> !PastRank(l, j, limit)
      {
        var c := l[k + 1];
        WidthTaken(l, k);
        r := r + p.width;
        if r as real + c.width as real + c.delta > limit {
          assert StopsAt(l, k, limit);
          SampleFed(l, n, fed, k);
          return p.value;
        }
        p := c;
        k := k + 1;
      }
      assert StopsAt(l, k, limit);
      SampleFed(l, n, fed, k);
      v := p.value;
    }
  }

  /** What the promise about ranks says of each sample. */
  lemma {:induction false} RankOf(l: seq<Sample>, before: int, fed: seq<Sample>, k: nat)
    requires RanksHold(l, before, fed) && k < |l|
    ensures before + Width(l[..k + 1]) <= AtMost(fed, l[k].value)
    decreases k
  {
    assert l[..k + 1][1..] == l[1..][..k];
    if k > 0 {
      RankOf(l[1..], before + l[0].width, fed, k - 1);
    } else {
      assert l[..1][1..] == [];
    }
  }

  // ---------------------------------------------------------------- the stream

  class Stream {
    const summary: Summary
    var b: seq<Sample>
    var sorted: bool
    ghost var inserted: multiset<real>

    /**
     * Everything inserted is in the buffer or was fed to the summary, whose
     * widths and the buffer's length add up to the number inserted.
     */
    ghost predicate Valid()
      reads this, summary
    {
      && summary.Valid()
      && Observed(b) && |b| < BUFFER_SIZE
      && (sorted ==> Sorted(b))
      && Values(summary.fed) + Values(b) == inserted
      && summary.n + |b| == |inserted|
    }

    constructor (f: ErrorBound)
      ensures Valid() && fresh(summary) && inserted == multiset{} && summary.bound == f
    {
      summary := new Summary(f);
      b := [];
      sorted := true;
      inserted := multiset{};
      new;
      NoWidth();
    }

    method Insert(v: real)
      requires Valid()
      modifies this, summary
      ensures Valid() && inserted == old(inserted) + multiset{v}
    {
      hide Summarises, Values, Sorted;
      var s := Sample(v, 1, 0.0);
      ValuesConcat(b, [s]);
      ValuesOne(s);
      NoWidth();
      NothingToSort();
      b := b + [s];
      sorted := false;
      inserted := inserted + multiset{v};
      if |b| == BUFFER_SIZE {
        Flush();
      }
    }

    method MaybeSort()
      requires Observed(b) && (sorted ==> Sorted(b))
      modifies this`b, this`sorted
      ensures Sorted(b) && sorted && Observed(b)
      ensures Values(b) == old(Values(b)) && |b| == |old(b)|
    {
      if !sorted {
        sorted := true;
        b := Sort(b);
      }
    }

    /** Moves the whole buffer into the summary. */
    method Flush()
      requires summary.Valid() && Observed(b) && (sorted ==> Sorted(b))
      modifies this`b, this`sorted, summary
      ensures summary.Valid() && b == [] && sorted
      ensures Values(summary.fed) == old(Values(summary.fed)) + old(Values(b))
      ensures summary.n == old(summary.n) + |old(b)|
    {
      hide Summarises, Values, Width;
      MaybeSort();
      ObservedWidth(b);
      summary.Merge(b);
      b := [];
      NoWidth();
    }

    /** The position the fast path reads. */
    function Position(q: real): int
      reads this
    {
      var x := |b| as real * q;
      var i := if x >= 0.0 then x.Floor else -((-x).Floor);
      if i > 0 then i - 1 else i
    }

    /**
     * The answer is a value that was inserted, or zero when there is none.
     * Before the first flush it is read from the sorted buffer, where a
     * position outside it would be out of range.
     */
    method Query(q: real) returns (v: real)
      requires Valid()
      requires summary.l == [] && b != [] ==> 0 <= Position(q) < |b|
      modifies this, summary
      ensures Valid() && inserted == old(inserted)
      ensures if inserted == multiset{} then v == 0.0 else v in inserted
      ensures old(summary.l) == [] && old(b) != [] ==>
        Sorted(b) && |b| == |old(b)| && v == b[old(Position(q))].value
      ensures old(summary.l) != [] ==>
        b == [] && exists k :: 0 <= k < |summary.l| && v == summary.l[k].value && StopsAt(summary.l, k, summary.Limit(q))
    {
      hide Summarises, Values, Sorted, Observed, Fed, StopsAt, Summary.Limit;
      if summary.l == [] {
        if |b| == 0 {
          NothingInserted(summary.l, summary.n, summary.fed, b, inserted);
          return 0.0;
        }
        v := QueryBuffer(q);
        return;
      }
      v := QuerySummary(q);
    }

    method QueryBuffer(q: real) returns (v: real)
      requires Valid() && summary.l == [] && b != [] && 0 <= Position(q) < |b|
      modifies this`b, this`sorted
      ensures Valid() && v in inserted
      ensures Sorted(b) && |b| == |old(b)| && v == b[old(Position(q))].value
    {
      hide Summarises, Values, Sorted, Observed;
      var k := Position(q);
      MaybeSort();
      ValueIn(b, k);
      return b[k].value;
    }

    method QuerySummary(q: real) returns (v: real)
      requires Valid() && summary.l != []
      modifies this`b, this`sorted, summary
      ensures Valid() && b == [] && v in inserted
      ensures exists k :: 0 <= k < |summary.l| && v == summary.l[k].value && StopsAt(summary.l, k, summary.Limit(q))
    {
      hide Summarises, Values, Sorted, Observed, Fed, StopsAt, Summary.Limit;
      SummaryFacts(summary.l, summary.n, summary.fed);
      ValuesSize(summary.fed);
      Flush();
      NoWidth();
      NothingToSort();
      SummaryFacts(summary.l, summary.n, summary.fed);
      ValuesSize(summary.fed);
      v := summary.Query(q);
      FedIn(summary.fed, v);
    }

    /** The number of values inserted. */
    method Count() returns (n: int)
      requires Valid()
      ensures n == |inserted|
    {
      n := |b| + summary.n;
    }
  }

  lemma NothingInserted(l: seq<Sample>, n: int, fed: seq<Sample>, b: seq<Sample>, inserted: multiset<real>)
    requires Summarises(l, n, fed) && l == [] && b == [] && Values(fed) + Values(b) == inserted
    ensures inserted == multiset{}
  {
    SummaryFacts(l, n, fed);
  }

  lemma NothingToSort()
    ensures Sorted([]) && Observed([])
  {
  }

  lemma {:induction false} ValueIn(l: seq<Sample>, k: nat)
    requires k < |l|
    ensures l[k].value in Values(l)
    decreases k
  {
    if k > 0 {
      ValueIn(l[1..], k - 1);
    }
  }

  lemma FedIn(fed: seq<Sample>, v: real)
    requires Fed(fed, v)
    ensures v in Values(fed)
  {
    var i :| 0 <= i < |fed| && fed[i].value == v;
    ValueIn(fed, i);
  }

  /** The successor of the sample could have a rank past the limit. */
  ghost predicate PastRank(l: seq<Sample>, k: nat, limit: real)
    requires k < |l|
  {
    k + 1 < |l| && Width(l[..k + 1]) as real + l[k + 1].width as real + l[k + 1].delta > limit
  }

  ghost predicate StopsAt(l: seq<Sample>, k: nat, limit: real)
    requires k < |l|
  {
    (forall j :: 0 <= j < k ==> !PastRank(l, j, limit)) && (PastRank(l, k, limit) || k == |l| - 1)
  }

  lemma SummaryFacts(l: seq<Sample>, n: int, fed: seq<Sample>)
    requires Summarises(l, n, fed)
    ensures Sorted(l) && Weighted(l) && (l == [] <==> fed == []) && Width(l) == n
  {
  }

  lemma SampleFed(l: seq<Sample>, n: int, fed: seq<Sample>, k: nat)
    requires Summarises(l, n, fed) && k < |l|
    ensures Fed(fed, l[k].value)
  {
  }

  lemma WidthTaken(l: seq<Sample>, k: nat)
    requires k < |l|
    ensures Width(l[..k + 1]) == Width(l[..k]) + l[k].width
  {
    hide Width;
    assert l[..k + 1] == l[..k] + [l[k]];
    WidthConcat(l[..k], [l[k]]);
    WidthOne(l[k]);
  }

  lemma WidthUpTo(l: seq<Sample>, i: nat, s: Sample)
    requires i <= |l|
    ensures Width(Inserted(l, i, s)[..i + 1]) == Width(l[..i]) + s.width
    ensures forall j :: 0 <= j <= i ==> Inserted(l, i, s)[j] == if j < i then l[j] else s
  {
    hide Width;
    assert Inserted(l, i, s)[..i + 1] == l[..i] + [s];
    WidthConcat(l[..i], [s]);
    WidthOne(s);
  }

  lemma NoWidth()
    ensures Width([]) == 0 && Values([]) == multiset{}
  {
  }

  lemma ValuesOne(s: Sample)
    ensures Values([s]) == multiset{s.value}
  {
    assert [s][1..] == [];
  }

  lemma AbsorbedIs(l: seq<Sample>, i: nat, x: Sample)
    requires i + 1 < |l| && x == l[i + 1].(width := l[i + 1].width + l[i].width)
    ensures var r := l[i + 1 := x]; r[..i] + r[i + 1..] == Absorbed(l, i)
    ensures |Absorbed(l, i)| == |l| - 1 && Absorbed(l, i)[i] == x && Absorbed(l, i)[..i] == l[..i]
  {
  }
}
