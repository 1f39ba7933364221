/** How far the incrementally rounded centroid can drift from the exact mean. */
module Centroid {
  import opened Rounding
  import opened Candidate
  import opened CandidateSteps

  ghost predicate Uniform(vectors: seq<seq<real>>, d: nat) {
    forall k :: 0 <= k < |vectors| ==> |vectors[k]| == d
  }

  /** The centroid of a candidate after these contributions joined it one by one. */
  function Incremental(vectors: seq<seq<real>>): seq<real>
    requires vectors != []
  {
    var n := |vectors| - 1;
    if n == 0 then vectors[0] else UpdatedCentroid(Incremental(vectors[..n]), n, vectors[n])
  }

  function Sum(vectors: seq<seq<real>>, d: nat, i: nat): real
    requires i < d && forall k :: 0 <= k < |vectors| ==> |vectors[k]| == d
  {
    if vectors == [] then 0.0 else Sum(vectors[..|vectors| - 1], d, i) + vectors[|vectors| - 1][i]
  }

  function Abs(x: real): real { if x < 0.0 then -x else x }

  /** `n` times the error after `n` contributions, in half units. */
  function Weight(n: nat): real
    requires n >= 1
  {
    if n == 1 then 0.0 else Weight(n - 1) + n as real
  }

  lemma {:induction false} WeightClosed(n: nat)
    requires n >= 1
    ensures Weight(n) == n as real * (n as real + 1.0) / 2.0 - 1.0
  {
    if n > 1 {
      WeightClosed(n - 1);
      var x := n as real;
      assert (n - 1) as real == x - 1.0;
      assert (x - 1.0) * x / 2.0 - 1.0 + x == x * (x + 1.0) / 2.0 - 1.0;
    }
  }

  lemma NonNegative(a: real, b: real)
    requires a >= 0.0 && b >= 0.0
    ensures a * b >= 0.0
  {
  }

  /** Moving `x` by at most `h` moves `x * m` by at most `h * m`. */
  lemma MovedBy(r: real, x: real, h: real, m: real)
    requires m >= 0.0 && r <= x + h
    ensures r * m <= x * m + h * m
  {
    Monotone(r, x + h, m);
    Distributes(x, h, m);
  }

  lemma Monotone(a: real, b: real, m: real)
    requires a <= b && m >= 0.0
    ensures a * m <= b * m
  {
    NonNegative(b - a, m);
  }

  lemma Distributes(a: real, b: real, m: real)
    ensures (a + b) * m == a * m + b * m
  {
  }

  lemma QuotientTimes(y: real, m: real)
    requires m > 0.0
    ensures (y / m) * m == y
  {
  }

  lemma Near(rm: real, xm: real, hm: real, t: real, w: real)
    requires rm <= xm + hm && xm <= rm + hm && Abs(xm - t) <= w
    ensures Abs(rm - t) <= w + hm
  {
  }

  lemma OneMore(r: real, x: real, t: real, m: real, w: real, h: real)
    requires m > 0.0 && r <= x + h && x <= r + h && Abs(x * m - t) <= w
    ensures Abs(r * m - t) <= w + h * m
  {
    MovedBy(r, x, h, m);
    MovedBy(x, r, h, m);
    Near(r * m, x * m, h * m, t, w);
  }

  lemma IncrementalStep(vectors: seq<seq<real>>, d: nat, i: nat)
    requires |vectors| > 1 && d >= 1 && Uniform(vectors, d) && i < d && |Incremental(vectors[..|vectors| - 1])| == d
    ensures |Incremental(vectors)| == d
    ensures var n := |vectors| - 1;
            Incremental(vectors)[i] == Joined(Incremental(vectors[..n])[i], vectors[n][i], n)
  {
  }

  lemma SumStep(vectors: seq<seq<real>>, d: nat, i: nat)
    requires vectors != [] && Uniform(vectors, d) && i < d
    ensures Sum(vectors, d, i) == Sum(vectors[..|vectors| - 1], d, i) + vectors[|vectors| - 1][i]
  {
  }

  /** The error of the first `n` contributions, scaled by `n`. */
  ghost predicate Drifts(c: real, n: nat, s: real)
    requires n >= 1
  {
    Abs(c * n as real - s) <= HALF_UNIT * Weight(n)
  }

  lemma DriftBase(c: real)
    ensures Drifts(c, 1, c)
  {
  }

  lemma DriftStep(c: real, s: real, v: real, n: nat, next: real, sum: real)
    requires n >= 1 && Drifts(c, n, s) && next == Round7((c * n as real + v) / (n + 1) as real) && sum == s + v
    ensures Drifts(next, n + 1, sum)
  {
    var y, m := c * n as real + v, (n + 1) as real;
    var x := y / m;
    QuotientTimes(y, m);
    Shifted(c * n as real, s, v, HALF_UNIT * Weight(n));
    Instead(x * m, y, sum, HALF_UNIT * Weight(n));
    OneMore(next, x, sum, m, HALF_UNIT * Weight(n), HALF_UNIT);
    WeightStep(n);
    Distributes(Weight(n), m, HALF_UNIT);
  }

  lemma Shifted(a: real, s: real, v: real, w: real)
    requires Abs(a - s) <= w
    ensures Abs((a + v) - (s + v)) <= w
  {
  }

  lemma Instead(a: real, b: real, t: real, w: real)
    requires a == b && Abs(b - t) <= w
    ensures Abs(a - t) <= w
  {
  }

  lemma WeightStep(n: nat)
    requires n >= 1
    ensures Weight(n + 1) == Weight(n) + (n + 1) as real
  {
  }

  function Joined(c: real, v: real, n: nat): real
    requires n >= 1
  {
    Round7((c * n as real + v) / (n + 1) as real)
  }

  /** What one contributor keeps between a coordinate and its sum, any number of them keep. */
  lemma {:induction false} JoiningKeeps(holds: (real, nat, real) -> bool, vectors: seq<seq<real>>, d: nat, i: nat)
    requires vectors != [] && d >= 1 && Uniform(vectors, d) && i < d
    requires forall c :: holds(c, 1, c)
    requires forall c, n, s, v :: n >= 1 && holds(c, n, s) ==> holds(Joined(c, v, n), n + 1, s + v)
    ensures |Incremental(vectors)| == d && holds(Incremental(vectors)[i], |vectors|, Sum(vectors, d, i))
  {
    var n := |vectors| - 1;
    SumStep(vectors, d, i);
    if n == 0 {
      assert Sum(vectors[..0], d, i) == 0.0;
    } else {
      JoiningKeeps(holds, vectors[..n], d, i);
      IncrementalStep(vectors, d, i);
    }
  }

  lemma ScaledDrift(vectors: seq<seq<real>>, d: nat, i: nat)
    requires vectors != [] && d >= 1 && Uniform(vectors, d) && i < d
    ensures |Incremental(vectors)| == d && Drifts(Incremental(vectors)[i], |vectors|, Sum(vectors, d, i))
  {
    var holds := (c: real, n: nat, s: real) => n >= 1 && Drifts(c, n, s);
    forall c ensures holds(c, 1, c) { DriftBase(c); }
    forall c, n: nat, s, v | n >= 1 && holds(c, n, s) ensures holds(Joined(c, v, n), n + 1, s + v) {
      DriftStep(c, s, v, n, Joined(c, v, n), s + v);
    }
    JoiningKeeps(holds, vectors, d, i);
  }

  lemma Divided(c: real, s: real, n: real, bound: real)
    requires n > 0.0 && Abs(c * n - s) <= bound * n
    ensures Abs(c - s / n) <= bound
  {
    QuotientTimes(s, n);
    var e := c - s / n;
    assert e * n == c * n - s;
    Cancels(e, bound, n);
    Cancels(-e, bound, n);
  }

  lemma Cancels(e: real, bound: real, n: real)
    requires n > 0.0 && e * n <= bound * n
    ensures e <= bound
  {
    if e > bound { NonNegative(e - bound, n); }
  }

  lemma BoundTimes(n: real)
    requires n > 0.0
    ensures ((n + 1.0) / 2.0 - 1.0 / n) * n == n * (n + 1.0) / 2.0 - 1.0
  {
    QuotientTimes(1.0, n);
    var a, b := (n + 1.0) / 2.0, 1.0 / n;
    assert (a - b) * n == a * n - b * n;
  }

  /** After `n` contributors the incremental centroid is within `(n + 1) / 2 - 1 / n` half units in the
      seventh decimal of the exact mean, in every coordinate. */
  lemma DriftBound(vectors: seq<seq<real>>, d: nat, i: nat)
    requires vectors != [] && d >= 1 && Uniform(vectors, d) && i < d
    ensures |Incremental(vectors)| == d
    ensures var n := |vectors| as real;
            Abs(Incremental(vectors)[i] - Sum(vectors, d, i) / n) <= ((n + 1.0) / 2.0 - 1.0 / n) * HALF_UNIT
  {
    ScaledDrift(vectors, d, i);
    Undrifted(Incremental(vectors)[i], |vectors|, Sum(vectors, d, i));
  }

  lemma Undrifted(c: real, k: nat, s: real)
    requires k >= 1 && Drifts(c, k, s)
    ensures var n := k as real; Abs(c - s / n) <= ((n + 1.0) / 2.0 - 1.0 / n) * HALF_UNIT
  {
    var n := k as real;
    WeightClosed(k);
    BoundTimes(n);
    var units := (n + 1.0) / 2.0 - 1.0 / n;
    Reordered(units, HALF_UNIT, n);
    Divided(c, s, n, units * HALF_UNIT);
  }

  lemma Reordered(a: real, b: real, c: real)
    ensures (a * b) * c == b * (a * c)
  {
  }

  /** The recomputed centroid is within half a unit of the exact mean of the applied vectors. */
  lemma RecomputedBound(rows: Rows, s: set<Token>, p: Partial, i: nat)
    requires s <= rows.Keys && VectorsOf(p, rows, s) && p.vectors > 0 && i < |p.sums|
    ensures |MeanCentroid(p)| == |p.sums|
    ensures Abs(MeanCentroid(p)[i] - Coordinate(rows, s, |p.sums|, i) / |s| as real) <= HALF_UNIT
  {
  }

  /** Joining contributors one by one gives a summary exactly this centroid. */
  lemma JoiningIsIncremental(c: Cell, seen: Summary, t: Token, row: Row, vectors: seq<seq<real>>)
    requires Admissible(c, Match(seen, t, row)) && vectors != [] && seen.contributors == |vectors| && seen.centroid == Incremental(vectors)
    ensures Next(c, Match(seen, t, row)).summary.value.centroid == Incremental(vectors + [row.vector])
  {
    IncrementalNext(vectors, row.vector);
  }

  lemma IncrementalNext(vectors: seq<seq<real>>, v: seq<real>)
    requires vectors != []
    ensures Incremental(vectors + [v]) == UpdatedCentroid(Incremental(vectors), |vectors|, v)
  {
    assert (vectors + [v])[..|vectors|] == vectors;
  }
}
