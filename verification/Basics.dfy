/** Small building blocks: optional values and sums over finite maps. */
module Basics {

  datatype Option<+T> = None | Some(value: T)

  /** One finite map is a restriction of another: entries disappear, none appears or changes. */
  ghost predicate Shrinks<K, V>(before: map<K, V>, after: map<K, V>) {
    && after.Keys <= before.Keys
    && forall k :: k in after ==> after[k] == before[k]
  }

  lemma SubsetSize<T>(a: set<T>, b: set<T>)
    requires a <= b
    ensures |a| <= |b|
  {
    assert b == a + (b - a);
  }

  lemma SmallerSet<T>(a: set<T>, b: set<T>, x: T)
    requires a <= b && x in b && x !in a
    ensures |a| < |b|
  {
    assert b == a + (b - a) && x in b - a;
  }

  predicate IsLeast(s: set<nat>, t: nat) {
    t in s && forall u :: u in s ==> t <= u
  }

  lemma {:induction false} LeastExists(s: set<nat>) returns (t: nat)
    requires s != {}
    ensures IsLeast(s, t)
    decreases |s|
  {
    t :| t in s;
    if s != {t} {
      assert |s - {t}| < |s| && s - {t} != {};
      var least := LeastExists(s - {t});
      assert forall u :: u in s ==> u == t || u in s - {t};
      t := if t < least then t else least;
    }
  }
}

/** Sums of the values of a finite map; the order of summation does not matter. */
module Sums {

  ghost function Pick(s: set<nat>): (k: nat)
    requires s != {}
    ensures k in s
  {
    var k :| k in s; k
  }

  ghost function Total(m: map<nat, int>): int {
    if m == map[] then 0
    else var k := Pick(m.Keys); m[k] + Total(m - {k})
  }

  /** Splitting off any key, not only the picked one, splits the total. */
  lemma {:induction false} TotalSplit(m: map<nat, int>, k: nat)
    requires k in m
    ensures Total(m) == m[k] + Total(m - {k})
    decreases |m|
  {
    var p := Pick(m.Keys);
    if p != k {
      TotalSplit(m - {p}, k);
      TotalSplit(m - {k}, p);
      assert m - {p} - {k} == m - {k} - {p};
    }
  }

  lemma TotalAdd(m: map<nat, int>, k: nat, v: int)
    requires k !in m
    ensures Total(m[k := v]) == Total(m) + v
  {
    TotalSplit(m[k := v], k);
    assert m[k := v] - {k} == m;
  }

  lemma TotalUpdate(m: map<nat, int>, k: nat, v: int)
    requires k in m
    ensures Total(m[k := v]) == Total(m) - m[k] + v
  {
    TotalSplit(m[k := v], k);
    TotalSplit(m, k);
    assert m[k := v] - {k} == m - {k};
  }

  /** With values between one and three the total lies between the size and three times the size. */
  lemma {:induction false} TotalOneToThree(m: map<nat, int>)
    requires forall k :: k in m ==> 1 <= m[k] <= 3
    ensures |m| <= Total(m) <= 3 * |m|
    decreases |m|
  {
    if m != map[] {
      var p := Pick(m.Keys);
      var rest := m - {p};
      assert rest.Keys == m.Keys - {p};
      TotalOneToThree(rest);
      TotalSplit(m, p);
    }
  }

  ghost function RealTotal(m: map<nat, real>): real {
    if m == map[] then 0.0
    else var k := Pick(m.Keys); m[k] + RealTotal(m - {k})
  }

  lemma {:induction false} RealTotalSplit(m: map<nat, real>, k: nat)
    requires k in m
    ensures RealTotal(m) == m[k] + RealTotal(m - {k})
    decreases |m|
  {
    var p := Pick(m.Keys);
    if p != k {
      RealTotalSplit(m - {p}, k);
      RealTotalSplit(m - {k}, p);
      assert m - {p} - {k} == m - {k} - {p};
    }
  }

  lemma RealTotalAdd(m: map<nat, real>, k: nat, v: real)
    requires k !in m
    ensures RealTotal(m[k := v]) == RealTotal(m) + v
  {
    RealTotalSplit(m[k := v], k);
    assert m[k := v] - {k} == m;
  }
}
