/** How much a feature resembles a candidate, and which candidate it is counted for. */
module Similarity {
  import opened Basics
  import opened Rounding
  import opened Metadata

  const THRESHOLD := 0.82
  const UNKNOWN := "unknown"

  /** What is compared: a taxonomy bucket, a vector and metadata. */
  datatype Profile = Profile(bucket: string, vector: seq<real>, meta: Metadata)

  function Dot(a: seq<real>, b: seq<real>): real
    requires |a| == |b|
  {
    if a == [] then 0.0 else a[0] * b[0] + Dot(a[1..], b[1..])
  }

  /** The vector that is one at one place and nothing elsewhere. */
  function Unit(n: nat, i: nat): (u: seq<real>)
    ensures |u| == n
  {
    seq(n, j => if j == i then 1.0 else 0.0)
  }

  function Scaled(k: real, x: real, y: real): real { k * x + y }

  function Combined(k: real, a: seq<real>, c: seq<real>): (v: seq<real>)
    requires |a| == |c|
    ensures |v| == |a|
  {
    seq(|a|, j requires 0 <= j < |a| => Scaled(k, a[j], c[j]))
  }

  lemma {:induction false} DotNothing(n: nat, i: nat, b: seq<real>)
    requires n == |b| && i >= n
    ensures Dot(Unit(n, i), b) == 0.0
  {
    if n > 0 {
      assert forall j :: 0 <= j < n - 1 ==> Unit(n, i)[1..][j] == Unit(n - 1, i)[j];
      assert Unit(n, i)[1..] == Unit(n - 1, i);
      DotNothing(n - 1, i, b[1..]);
    }
  }

  /** The product with the unit vectors are the coordinates ... */
  lemma {:induction false} DotUnit(b: seq<real>, i: nat)
    requires i < |b|
    ensures Dot(Unit(|b|, i), b) == b[i]
  {
    var n := |b|;
    if i == 0 {
      assert Unit(n, 0)[1..] == Unit(n - 1, n - 1);
      DotNothing(n - 1, n - 1, b[1..]);
    } else {
      assert Unit(n, i)[1..] == Unit(n - 1, i - 1);
      DotUnit(b[1..], i - 1);
    }
  }

  /** ... and it is linear; there is only one such product. */
  lemma {:induction false} DotLinear(k: real, a: seq<real>, c: seq<real>, b: seq<real>)
    requires |a| == |c| == |b|
    ensures Dot(Combined(k, a, c), b) == k * Dot(a, b) + Dot(c, b)
  {
    if a != [] {
      assert Combined(k, a, c)[1..] == Combined(k, a[1..], c[1..]);
      DotLinear(k, a[1..], c[1..], b[1..]);
      Distributed(k, a[0], c[0], b[0], Dot(a[1..], b[1..]), Dot(c[1..], b[1..]));
    }
  }

  lemma Distributed(k: real, x: real, y: real, z: real, s: real, t: real)
    ensures Scaled(k, x, y) * z + (k * s + t) == k * (x * z + s) + (y * z + t)
  {
  }

  function Clamp(x: real): (r: real)
    ensures 0.0 <= r <= 1.0 && (0.0 <= x <= 1.0 ==> r == x)
  {
    if x < 0.0 then 0.0 else if x > 1.0 then 1.0 else x
  }

  /** The length of a vector is a parameter: it is a square root. */
  function Cosine(norm: seq<real> -> real, a: seq<real>, b: seq<real>): (r: real)
    ensures 0.0 <= r <= 1.0
  {
    if a == [] || |a| != |b| || norm(a) * norm(b) == 0.0 then 0.0 else Clamp(Dot(a, b) / (norm(a) * norm(b)))
  }

  function Jaccard(a: set<string>, b: set<string>): real {
    if a + b == {} then 0.0 else |a * b| as real / |a + b| as real
  }

  predicate Conflicting(a: string, b: string) { a != b && a != UNKNOWN && b != UNKNOWN }

  function Weighted(cosine: real, lexical: real, signals: real, indicators: real): real {
    0.45 * cosine + 0.25 * lexical + 0.20 * signals + 0.10 * indicators
  }

  function Score(norm: seq<real> -> real, a: Profile, b: Profile): real {
    if Conflicting(a.bucket, b.bucket) then 0.0
    else Round6(Weighted(Cosine(norm, a.vector, b.vector), Jaccard(a.meta.lexical, b.meta.lexical),
                         Jaccard(a.meta.signals, b.meta.signals), Jaccard(a.meta.indicators, b.meta.indicators)))
  }

  // ---------------------------------------------------------------- what a score means

  lemma Fraction(a: nat, b: nat)
    requires a <= b && b > 0
    ensures 0.0 <= a as real / b as real <= 1.0
    ensures a as real / b as real == 1.0 <==> a == b
    ensures a as real / b as real == 0.0 <==> a == 0
  {
  }

  /** The overlap is a fraction: nothing exactly for disjoint sets, everything exactly for equal ones
      that are not empty. */
  lemma JaccardBounds(a: set<string>, b: set<string>)
    ensures 0.0 <= Jaccard(a, b) <= 1.0
    ensures Jaccard(a, b) == 0.0 <==> a * b == {}
    ensures Jaccard(a, b) == 1.0 <==> a == b && a != {}
  {
    if a + b != {} {
      SubsetSize(a * b, a + b);
      var x :| x in a + b;
      SmallerSet({}, a + b, x);
      Fraction(|a * b|, |a + b|);
      if |a * b| == |a + b| { SameSize(a * b, a + b); }
      if |a * b| == 0 { assert a * b == {}; }
      assert a == b <==> a * b == a + b;
    }
  }

  lemma SameSize(a: set<string>, b: set<string>)
    requires a <= b && |a| == |b|
    ensures a == b
  {
    if x :| x in b && x !in a { SmallerSet(a, b, x); }
  }

  /** A score is a fraction, and one that reaches the threshold needs common words, common signals and
      near vectors, whatever the rest. */
  lemma MatchNeedsAll(norm: seq<real> -> real, a: Profile, b: Profile)
    ensures 0.0 <= Score(norm, a, b) <= 1.0
    ensures Score(norm, a, b) >= THRESHOLD ==>
              && (a.bucket == b.bucket || a.bucket == "unknown" || b.bucket == "unknown")
              && a.meta.lexical * b.meta.lexical != {} && Jaccard(a.meta.lexical, b.meta.lexical) > 0.279
              && a.meta.signals * b.meta.signals != {} && Jaccard(a.meta.signals, b.meta.signals) > 0.099
              && |a.vector| == |b.vector| && Cosine(norm, a.vector, b.vector) > 0.599
  {
    JaccardBounds(a.meta.lexical, b.meta.lexical);
    JaccardBounds(a.meta.signals, b.meta.signals);
    JaccardBounds(a.meta.indicators, b.meta.indicators);
    WeightedBounds(Cosine(norm, a.vector, b.vector), Jaccard(a.meta.lexical, b.meta.lexical),
                   Jaccard(a.meta.signals, b.meta.signals), Jaccard(a.meta.indicators, b.meta.indicators));
  }

  lemma WeightedBounds(c: real, l: real, s: real, i: real)
    requires 0.0 <= c <= 1.0 && 0.0 <= l <= 1.0 && 0.0 <= s <= 1.0 && 0.0 <= i <= 1.0
    ensures 0.0 <= Round6(Weighted(c, l, s, i)) <= 1.0
    ensures Round6(Weighted(c, l, s, i)) >= THRESHOLD ==> c > 0.599 && l > 0.279 && s > 0.099
  {
    Round6Within(Weighted(c, l, s, i));
  }

  /** Empty metadata resembles nothing, not even itself: a candidate exactly like the feature is matched
      if and only if there are words and signals to compare. */
  lemma LikeMatchesExactly(norm: seq<real> -> real, a: Profile)
    requires a.vector != [] && norm(a.vector) > 0.0 && norm(a.vector) * norm(a.vector) == Dot(a.vector, a.vector)
    ensures Score(norm, a, a) >= THRESHOLD <==> a.meta.lexical != {} && a.meta.signals != {}
  {
    SelfJaccard(a.meta.lexical);
    SelfJaccard(a.meta.signals);
    SelfJaccard(a.meta.indicators);
    SelfCosine(norm, a.vector);
    var x := Weighted(1.0, Jaccard(a.meta.lexical, a.meta.lexical), Jaccard(a.meta.signals, a.meta.signals), Jaccard(a.meta.indicators, a.meta.indicators));
    assert Score(norm, a, a) == Round6(x);
    Round6Within(x);
  }

  lemma SelfCosine(norm: seq<real> -> real, v: seq<real>)
    requires v != [] && norm(v) > 0.0 && norm(v) * norm(v) == Dot(v, v)
    ensures Cosine(norm, v, v) == 1.0
  {
    Ratio(norm(v), norm(v), Dot(v, v));
  }

  lemma Ratio(x: real, y: real, d: real)
    requires x > 0.0 && y > 0.0 && x * y == d
    ensures d > 0.0 && d / d == 1.0
  {
    Itself(d);
  }

  lemma Itself(n: real)
    requires n > 0.0
    ensures n / n == 1.0
  {
  }

  lemma SelfJaccard(a: set<string>)
    ensures Jaccard(a, a) == if a == {} then 0.0 else 1.0
  {
    JaccardBounds(a, a);
  }

  // ---------------------------------------------------------------- the choice

  /** The first of the highest scores, if it reaches the threshold. */
  ghost predicate Chosen(scores: seq<real>, choice: Option<nat>) {
    match choice
    case None => forall i :: 0 <= i < |scores| ==> scores[i] < THRESHOLD
    case Some(k) =>
      && k < |scores| && scores[k] >= THRESHOLD
      && (forall i :: 0 <= i < |scores| ==> scores[i] <= scores[k])
      && (forall i :: 0 <= i < k ==> scores[i] < scores[k])
  }

  /** At most one choice is possible. */
  lemma ChosenUnique(scores: seq<real>, a: Option<nat>, b: Option<nat>)
    requires Chosen(scores, a) && Chosen(scores, b)
    ensures a == b
  {
  }
}
