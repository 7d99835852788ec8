/**
 * What the answer of a query has to do with the quantile asked for: how far
 * it reaches, and that it grows with the quantile for error bounds that do
 * not fall too steeply, as those of all three kinds of stream.
 */
module QuantileAnswers {
  import opened Quantile

  // ---------------------------------------------------------------- what a query answers

  /** Unless it is the last, the answer is the first sample whose successor may have a rank past the wanted one. */
  lemma StopsPast(f: ErrorBound, n: int, l: seq<Sample>, k: nat, q: real)
    requires k + 1 < |l| && StopsAt(l, k, LimitOf(f, n, q)) && f(n, Ceil(q * n as real).Floor) >= 0.0
    ensures Width(l[..k + 1]) as real + l[k + 1].width as real + l[k + 1].delta > q * n as real
  {
  }

  /** From one rank to the next the allowed error falls by at most two. */
  ghost predicate Gentle(f: ErrorBound, n: int) {
    forall a: int, b: int :: a <= b ==> f(n, a) - f(n, b) <= 2.0 * (b - a) as real
  }

  lemma CeilWhole(x: real, k: int)
    ensures Ceil(x + k as real) == Ceil(x) + k as real
  {
    var a := (-x).Floor;
    assert -(x + k as real) == -x - k as real;
    assert (a - k) as real <= -x - k as real < (a - k) as real + 1.0;
    assert (-x - k as real).Floor == a - k;
  }

  lemma CeilBounds(x: real)
    ensures x <= Ceil(x) && Ceil(x).Floor as real == Ceil(x)
  {
    var a := -((-x).Floor);
    assert Ceil(x) == a as real;
  }

  lemma CeilMonotone(x: real, y: real)
    requires x <= y
    ensures Ceil(x) <= Ceil(y)
  {
    var a, b := (-x).Floor, (-y).Floor;
    assert b as real <= -y <= -x < a as real + 1.0;
    assert b <= a;
  }

  lemma LimitMonotone(f: ErrorBound, n: int, q: real, p: real)
    requires n >= 0 && q <= p && Gentle(f, n)
    ensures LimitOf(f, n, q) <= LimitOf(f, n, p)
  {
    hide Ceil, LimitOf;
    Scaled(q, p, n as real);
    CeilMonotone(q * n as real, p * n as real);
    LimitIs(f, n, q);
    LimitIs(f, n, p);
    var a, b := Ceil(q * n as real).Floor, Ceil(p * n as real).Floor;
    HalfSteps(f(n, a), f(n, b), a, b);
  }

  lemma LimitIs(f: ErrorBound, n: int, q: real)
    ensures var t := Ceil(q * n as real); LimitOf(f, n, q) == t.Floor as real + Ceil(f(n, t.Floor) / 2.0)
  {
    hide Ceil;
    CeilBounds(q * n as real);
  }

  lemma HalfSteps(x: real, y: real, a: int, b: int)
    requires a <= b && x - y <= 2.0 * (b - a) as real
    ensures a as real + Ceil(x / 2.0) <= b as real + Ceil(y / 2.0)
  {
    var k := b - a;
    CeilWhole(y / 2.0, k);
    CeilMonotone(x / 2.0, y / 2.0 + k as real);
  }

  lemma Scaled(q: real, p: real, n: real)
    requires q <= p && n >= 0.0
    ensures q * n <= p * n
  {
    assert p * n - q * n == (p - q) * n;
  }

  /** For one summary and a gentle error bound a larger quantile never has a smaller answer. */
  lemma AnswersMonotone(f: ErrorBound, n: int, l: seq<Sample>, q: real, p: real, j: nat, k: nat)
    requires n >= 0 && q <= p && Gentle(f, n) && Sorted(l) && j < |l| && k < |l|
    requires StopsAt(l, j, LimitOf(f, n, q)) && StopsAt(l, k, LimitOf(f, n, p))
    ensures l[j].value <= l[k].value
  {
    hide LimitOf, Gentle, PastRank;
    LimitMonotone(f, n, q, p);
    PastMonotone(l, k, LimitOf(f, n, q), LimitOf(f, n, p));
  }

  lemma PastMonotone(l: seq<Sample>, k: nat, a: real, b: real)
    requires k < |l| && a <= b
    ensures PastRank(l, k, b) ==> PastRank(l, k, a)
  {
    hide Width;
  }

  function LowBiased(epsilon: real): ErrorBound {
    (n: int, r: int) => 2.0 * epsilon * r as real
  }

  function HighBiased(epsilon: real): ErrorBound {
    (n: int, r: int) => 2.0 * epsilon * (n - r) as real
  }

  /** The error allowed for one wanted quantile, and for several the least of theirs. */
  function Target(quantile: real, epsilon: real): ErrorBound
    requires 0.0 < quantile < 1.0
  {
    (n: int, r: int) =>
      if quantile * n as real <= r as real then 2.0 * epsilon * r as real / quantile
      else 2.0 * epsilon * (n - r) as real / (1.0 - quantile)
  }

  function Least(f: ErrorBound, g: ErrorBound): ErrorBound {
    (n: int, r: int) => if f(n, r) < g(n, r) then f(n, r) else g(n, r)
  }

  /** The error bounds of all three kinds of stream are gentle, for targets when the error is within the rest. */
  lemma KindsGentle(n: int, epsilon: real, quantile: real)
    requires 0.0 <= epsilon <= 1.0 && 0.0 < quantile < 1.0
    ensures Gentle(LowBiased(epsilon), n) && Gentle(HighBiased(epsilon), n)
    ensures epsilon <= 1.0 - quantile ==> Gentle(Target(quantile, epsilon), n)
  {
    forall a: int, b: int | a <= b ensures LowBiased(epsilon)(n, a) - LowBiased(epsilon)(n, b) <= 2.0 * (b - a) as real {
      Line(2.0 * epsilon, a as real, b as real);
    }
    forall a: int, b: int | a <= b ensures HighBiased(epsilon)(n, a) - HighBiased(epsilon)(n, b) <= 2.0 * (b - a) as real {
      Line(2.0 * epsilon, (n - b) as real, (n - a) as real);
    }
    if epsilon <= 1.0 - quantile {
      TargetIsGentle(n, epsilon, quantile);
    }
  }

  /** A line of slope at most two. */
  lemma Line(s: real, a: real, b: real)
    requires 0.0 <= s <= 2.0 && a <= b
    ensures 0.0 <= s * b - s * a <= 2.0 * (b - a)
  {
    assert s * b - s * a == s * (b - a);
    Scaled(s, 2.0, b - a);
    Scaled(0.0, s, b - a);
  }

  lemma TargetIsGentle(n: int, epsilon: real, quantile: real)
    requires 0.0 <= epsilon <= 1.0 - quantile && 0.0 < quantile < 1.0
    ensures Gentle(Target(quantile, epsilon), n)
  {
    forall a: int, b: int | a <= b
      ensures Target(quantile, epsilon)(n, a) - Target(quantile, epsilon)(n, b) <= 2.0 * (b - a) as real
    {
      TargetAt(quantile, epsilon, n, a);
      TargetAt(quantile, epsilon, n, b);
      PiecesGentle(quantile, epsilon, n as real, a as real, b as real);
    }
  }

  /** The two pieces as lines with their slopes. */
  function Pieces(quantile: real, epsilon: real, n: real, r: real): real
    requires 0.0 < quantile < 1.0
  {
    if quantile * n <= r then 2.0 * epsilon / quantile * r else 2.0 * epsilon / (1.0 - quantile) * (n - r)
  }

  lemma TargetAt(quantile: real, epsilon: real, n: int, r: int)
    requires 0.0 < quantile < 1.0
    ensures Target(quantile, epsilon)(n, r) == Pieces(quantile, epsilon, n as real, r as real)
  {
    Times(epsilon, r as real, quantile);
    Times(epsilon, (n - r) as real, 1.0 - quantile);
    assert (n - r) as real == n as real - r as real;
  }

  lemma PiecesGentle(quantile: real, epsilon: real, n: real, a: real, b: real)
    requires 0.0 < quantile < 1.0 && 0.0 <= epsilon <= 1.0 - quantile && a <= b
    ensures Pieces(quantile, epsilon, n, a) - Pieces(quantile, epsilon, n, b) <= 2.0 * (b - a)
  {
    var at, rest := quantile * n, 1.0 - quantile;
    var s, c := 2.0 * epsilon / rest, 2.0 * epsilon / quantile;
    Slopes(epsilon, quantile, rest);
    if at <= a {
      Rises(c, a, b);
    } else if b < at {
      Line(s, n - b, n - a);
    } else {
      // At the target itself both pieces have the same value.
      Meet(quantile, epsilon, n);
      Rises(c, at, b);
      Line(s, n - at, n - a);
    }
  }

  lemma Rises(c: real, a: real, b: real)
    requires c >= 0.0 && a <= b
    ensures c * a <= c * b
  {
    assert c * b - c * a == c * (b - a);
    Scaled(0.0, c, b - a);
  }

  lemma Meet(quantile: real, epsilon: real, n: real)
    requires 0.0 < quantile < 1.0
    ensures 2.0 * epsilon / quantile * (quantile * n) == 2.0 * epsilon / (1.0 - quantile) * (n - quantile * n)
  {
    var rest := 1.0 - quantile;
    Cancel(epsilon, quantile, n);
    Cancel(epsilon, rest, n);
    assert n - quantile * n == rest * n;
  }

  lemma Slopes(epsilon: real, quantile: real, rest: real)
    requires quantile > 0.0 && rest > 0.0 && 0.0 <= epsilon <= rest
    ensures 0.0 <= 2.0 * epsilon / rest <= 2.0 && 0.0 <= 2.0 * epsilon / quantile
  {
    var s := 2.0 * epsilon / rest;
    assert s * rest == 2.0 * epsilon <= 2.0 * rest;
    if s > 2.0 { Scaled(2.0, s, rest); }
  }

  lemma Times(epsilon: real, x: real, d: real)
    requires d > 0.0
    ensures 2.0 * epsilon * x / d == 2.0 * epsilon / d * x
  {
    var e := 2.0 * epsilon / d;
    assert e * d == 2.0 * epsilon;
    assert 2.0 * epsilon * x == e * x * d;
    assert e * x * d / d == e * x;
  }

  lemma Cancel(epsilon: real, d: real, n: real)
    requires d > 0.0
    ensures 2.0 * epsilon / d * (d * n) == 2.0 * epsilon * n
  {
    var e := 2.0 * epsilon / d;
    assert e * d == 2.0 * epsilon;
    assert e * (d * n) == (e * d) * n;
  }

  lemma LeastGentle(f: ErrorBound, g: ErrorBound, n: int)
    requires Gentle(f, n) && Gentle(g, n)
    ensures Gentle(Least(f, g), n)
  {
    forall a: int, b: int | a <= b ensures Least(f, g)(n, a) - Least(f, g)(n, b) <= 2.0 * (b - a) as real {
      assert f(n, a) - f(n, b) <= 2.0 * (b - a) as real && g(n, a) - g(n, b) <= 2.0 * (b - a) as real;
    }
  }

  /** With an error bound that falls steeply the answer for the larger quantile can be the smaller one. */
  lemma SteepBound()
    ensures var f: ErrorBound := (n: int, r: int) => if r <= 2 then 8.0 else 0.0;
      var l := [Sample(1.0, 1, 0.0), Sample(2.0, 1, 0.0), Sample(3.0, 1, 0.0), Sample(4.0, 2, 0.0)];
      Sorted(l) && Width(l) == 5 && StopsAt(l, 3, LimitOf(f, 5, 0.4)) && StopsAt(l, 2, LimitOf(f, 5, 0.6))
  {
    var f: ErrorBound := (n: int, r: int) => if r <= 2 then 8.0 else 0.0;
    var l := [Sample(1.0, 1, 0.0), Sample(2.0, 1, 0.0), Sample(3.0, 1, 0.0), Sample(4.0, 2, 0.0)];
    assert Ceil(2.0) == 2.0 && Ceil(3.0) == 3.0 && Ceil(4.0) == 4.0 && Ceil(0.0) == 0.0;
    assert LimitOf(f, 5, 0.4) == 6.0 && LimitOf(f, 5, 0.6) == 3.0;
    assert l[1..] == [l[1], l[2], l[3]] && l[1..][1..] == [l[2], l[3]] && l[1..][1..][1..] == [l[3]];
    assert Width([l[3]]) == 2 && Width([l[2], l[3]]) == 3 && Width([l[1], l[2], l[3]]) == 4;
    FirstWidths(l[0], l[1], l[2]);
    assert l[..1] == [l[0]] && l[..2] == [l[0], l[1]] && l[..3] == [l[0], l[1], l[2]];
  }

  lemma FirstWidths(a: Sample, b: Sample, c: Sample)
    ensures Width([a]) == a.width && Width([a, b]) == a.width + b.width && Width([a, b, c]) == a.width + b.width + c.width
  {
    assert [a, b, c][1..] == [b, c] && [b, c][1..] == [c] && [c][1..] == [] && [a, b][1..] == [b] && [b][1..] == [] && [a][1..] == [];
    assert Width([]) == 0;
    assert Width([c]) == c.width && Width([b]) == b.width;
    assert Width([b, c]) == b.width + c.width;
  }

  // ---------------------------------------------------------------- what compression absorbs

  /** A sample stands for no more than the error bound allows at some rank, or is as it was fed to the compression. */
  ghost predicate WithinBound(f: ErrorBound, n: int, before: seq<Sample>, s: Sample) {
    s in before || exists r: int :: s.width as real + s.delta <= f(n, r)
  }

  /** Compression lets no sample grow beyond the bound. */
  lemma {:induction false} GrowsWithinBound(f: ErrorBound, n: int, before: seq<Sample>, l: seq<Sample>, i: nat)
    requires i < |l| && forall k :: 0 <= k < |l| ==> WithinBound(f, n, before, l[k])
    ensures var r := Compressed(f, n, l, i); forall k :: 0 <= k < |r| ==> WithinBound(f, n, before, r[k])
    decreases i
  {
    hide WithinBound, Absorbs;
    if i > 0 {
      if Absorbs(f, n, l, i) {
        var next := Absorbed(l, i - 1);
        forall k | 0 <= k < |next| ensures WithinBound(f, n, before, next[k]) {
          if k == i - 1 { BoundHolds(f, n, before, l, i); }
          assert k < i - 1 ==> next[k] == l[k];
          assert k > i - 1 ==> next[k] == l[k + 1];
        }
        GrowsWithinBound(f, n, before, next, i - 1);
        assert Compressed(f, n, l, i) == Compressed(f, n, next, i - 1);
      } else {
        GrowsWithinBound(f, n, before, l, i - 1);
        assert Compressed(f, n, l, i) == Compressed(f, n, l, i - 1);
      }
    }
  }

  lemma BoundHolds(f: ErrorBound, n: int, before: seq<Sample>, l: seq<Sample>, i: nat)
    requires 0 < i < |l| && Absorbs(f, n, l, i)
    ensures i - 1 < |Absorbed(l, i - 1)| && WithinBound(f, n, before, Absorbed(l, i - 1)[i - 1])
  {
    var s, r := Absorbed(l, i - 1)[i - 1], Width(l[..i]) - 1;
    assert s.width as real + s.delta <= f(n, r);
  }

  /** Two samples become one exactly when together they stay within the bound at the rank before the second. */
  lemma PairCompressed(f: ErrorBound, n: int, a: Sample, b: Sample)
    ensures Compressed(f, n, [a, b], 1)
      == if a.width as real + b.width as real + b.delta <= f(n, a.width - 1) then [Sample(b.value, a.width + b.width, b.delta)] else [a, b]
  {
    var l := [a, b];
    assert l[..1] == [a] && [a][1..] == [] && Width([]) == 0;
    assert Width([a]) == a.width;
    assert Absorbs(f, n, l, 1) <==> a.width as real + b.width as real + b.delta <= f(n, a.width - 1);
  }
}
