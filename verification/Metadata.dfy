/** Bounded candidate metadata: each field keeps only its smallest identifiers. */
module Metadata {
  import opened Basics

  const LEXICAL_LIMIT := 32
  const SIGNAL_LIMIT := 16
  const INDICATOR_LIMIT := 16

  /** A sorted duplicate-free list of identifiers is modelled as the set of its members. */
  datatype Metadata = Metadata(lexical: set<string>, signals: set<string>, indicators: set<string>)

  const EMPTY := Metadata({}, {}, {})

  /** The order in which identifiers are sorted. */
  predicate Less(a: string, b: string) {
    |b| > 0 && (|a| == 0 || a[0] < b[0] || (a[0] == b[0] && Less(a[1..], b[1..])))
  }

  lemma {:induction false} LessTransitive(a: string, b: string, c: string)
    requires Less(a, b) && Less(b, c)
    ensures Less(a, c)
  {
    if |a| > 0 && a[0] == b[0] && b[0] == c[0] {
      LessTransitive(a[1..], b[1..], c[1..]);
    }
  }

  lemma {:induction false} LessTotal(a: string, b: string)
    ensures !(Less(a, b) && Less(b, a))
    ensures a != b ==> Less(a, b) || Less(b, a)
    ensures !Less(a, a)
  {
    if |a| > 0 && |b| > 0 && a[0] == b[0] {
      LessTotal(a[1..], b[1..]);
      assert a == [a[0]] + a[1..] && b == [b[0]] + b[1..];
    }
    if |a| > 0 { LessTotal(a[1..], a[1..]); }
  }

  function Below(s: set<string>, x: string): set<string> {
    set y | y in s && Less(y, x)
  }

  /** The first `limit` members of `s` in sorted order. */
  function Smallest(s: set<string>, limit: nat): set<string> {
    set x | x in s && |Below(s, x)| < limit
  }

  ghost function Greatest(s: set<string>): (m: string)
    requires s != {}
    ensures m in s && forall y :: y in s && y != m ==> Less(y, m)
    decreases |s|
  {
    var x :| x in s;
    if s == {x} then x
    else
      var rest := s - {x};
      assert |rest| < |s|;
      var m := Greatest(rest);
      LessTotal(x, m);
      if Less(x, m) then m
      else
        assert forall y :: y in s && y != x ==> Less(y, x) by {
          forall y | y in s && y != x ensures Less(y, x) {
            if y != m { LessTransitive(y, m, x); }
          }
        }
        x
  }

  /** Truncation keeps exactly `limit` identifiers whenever there are that many. */
  lemma {:induction false} SmallestSize(s: set<string>, limit: nat)
    requires |s| >= limit
    ensures |Smallest(s, limit)| == limit
    decreases |s|
  {
    if |s| == limit {
      forall x | x in s ensures |Below(s, x)| < limit {
        LessTotal(x, x);
        SubsetSize(Below(s, x), s - {x});
      }
      assert Smallest(s, limit) == s;
    } else {
      var m := Greatest(s);
      var rest := s - {m};
      assert |rest| == |s| - 1;
      SmallestSize(rest, limit);
      forall x | x in rest ensures Below(s, x) == Below(rest, x) { LessTotal(x, m); }
      LessTotal(m, m);
      assert Below(s, m) == rest;
      assert Smallest(s, limit) == Smallest(rest, limit);
    }
  }

  /** `kept` are the first of `all` in sorted order: all of them, or exactly as many as the limit allows. */
  predicate FirstOf(kept: set<string>, all: set<string>, limit: nat) {
    && kept <= all && |kept| == (if |all| <= limit then |all| else limit)
    && forall x, y :: x in kept && y in all && y !in kept ==> Less(x, y)
  }

  lemma SmallestIsFirst(s: set<string>, limit: nat)
    ensures FirstOf(Smallest(s, limit), s, limit)
  {
    if |s| >= limit {
      SmallestSize(s, limit);
    } else {
      forall x | x in s ensures |Below(s, x)| < limit { SubsetSize(Below(s, x), s); }
      assert Smallest(s, limit) == s;
    }
    forall x, y | x in Smallest(s, limit) && y in s && y !in Smallest(s, limit) ensures Less(x, y) {
      LessTotal(x, y);
      if !Less(x, y) {
        forall z | z in Below(s, y) ensures z in Below(s, x) { LessTransitive(z, y, x); }
        SubsetSize(Below(s, y), Below(s, x));
      }
    }
  }

  /** At the first place where they differ `a` has ended or has the smaller character. */
  predicate DiffersAt(a: string, b: string, i: nat) {
    && i <= |a| && i < |b| && a[..i] == b[..i] && (i == |a| || a[i] < b[i])
  }

  lemma SameStart(a: string, b: string, i: nat)
    requires DiffersAt(a, b, i) && i > 0
    ensures |a| > 0 && a[0] == b[0]
  {
    assert a[..i][0] == a[0] && b[..i][0] == b[0];
  }

  /** Identifiers are sorted by the first character in which they differ, and a prefix comes first. */
  lemma {:induction false} LessByFirstDifference(a: string, b: string)
    ensures Less(a, b) <==> exists i: nat :: DiffersAt(a, b, i)
  {
    if |a| > 0 && |b| > 0 && a[0] == b[0] {
      LessByFirstDifference(a[1..], b[1..]);
      if Less(a, b) {
        var i: nat :| DiffersAt(a[1..], b[1..], i);
        assert a[..i + 1] == [a[0]] + a[1..][..i] && b[..i + 1] == [b[0]] + b[1..][..i];
        assert DiffersAt(a, b, i + 1);
      }
      if i: nat :| DiffersAt(a, b, i) {
        assert i > 0;
        assert a[1..][..i - 1] == a[..i][1..] && b[1..][..i - 1] == b[..i][1..];
        assert DiffersAt(a[1..], b[1..], i - 1);
      }
    } else {
      assert |b| > 0 ==> (DiffersAt(a, b, 0) <==> Less(a, b));
      if i: nat :| DiffersAt(a, b, i) {
        if i > 0 { SameStart(a, b, i); }
      }
    }
  }

  /** Truncating early loses nothing that a later truncation would have kept, so the bounded
      union can be built page by page. */
  lemma TruncatedUnion(a: set<string>, b: set<string>, limit: nat)
    ensures Smallest(Smallest(a, limit) + b, limit) == Smallest(a + b, limit)
  {
    var u, v := a + b, Smallest(a, limit) + b;
    forall x | x in u ensures x in Smallest(v, limit) <==> x in Smallest(u, limit) {
      SubsetSize(Below(v, x), Below(u, x));
      if |Below(u, x)| < limit {
        SubsetSize(Below(a, x), Below(u, x));
      } else if !(Below(a, x) <= Smallest(a, limit)) {
        var y :| y in Below(a, x) && y !in Smallest(a, limit);
        SmallestSize(Below(a, y), limit);
        forall z | z in Smallest(Below(a, y), limit) ensures z in Below(v, x) {
          LessTransitive(z, y, x);
          forall w | w in Below(a, z) ensures w in Below(Below(a, y), z) { LessTransitive(w, z, y); }
          assert Below(a, z) == Below(Below(a, y), z);
        }
        SubsetSize(Smallest(Below(a, y), limit), Below(v, x));
      } else {
        assert Below(v, x) == Below(u, x);
      }
    }
  }

  function Merge(left: Metadata, right: Metadata): Metadata {
    Metadata(Smallest(left.lexical + right.lexical, LEXICAL_LIMIT),
             Smallest(left.signals + right.signals, SIGNAL_LIMIT),
             Smallest(left.indicators + right.indicators, INDICATOR_LIMIT))
  }

  function Union(left: Metadata, right: Metadata): Metadata {
    Metadata(left.lexical + right.lexical, left.signals + right.signals, left.indicators + right.indicators)
  }

  function Truncate(m: Metadata): Metadata {
    Metadata(Smallest(m.lexical, LEXICAL_LIMIT), Smallest(m.signals, SIGNAL_LIMIT), Smallest(m.indicators, INDICATOR_LIMIT))
  }

  /** Merging a truncated running union with one more row truncates the full union. */
  lemma MergeTruncates(all: Metadata, right: Metadata)
    ensures Merge(Truncate(all), right) == Truncate(Union(all, right))
  {
    TruncatedUnion(all.lexical, right.lexical, LEXICAL_LIMIT);
    TruncatedUnion(all.signals, right.signals, SIGNAL_LIMIT);
    TruncatedUnion(all.indicators, right.indicators, INDICATOR_LIMIT);
  }
}
