/** The rows of one campaign candidate and what single transactions may do to them. */
module Candidate {
  import opened Basics
  import opened Sums
  import opened Metadata

  /** Contributor tokens, numbered in the order in which the table sorts them. */
  type Token = nat

  const MAX_SUBMISSIONS := 3
  const MINIMUM_CONTRIBUTORS := 10
  const AGGREGATE_SECONDS := 400 * 86400

  datatype Row = Row(submissions: nat, expiresAt: nat, language: string,
                     vectorApplied: bool, vector: seq<real>, meta: Metadata)

  type Rows = map<Token, Row>

  /** When and by which operation a candidate was first frozen. */
  datatype Publication = Publication(operation: nat, startedAt: nat)

  /** The content of an aggregate that its stored digest covers. */
  datatype Body = Body(category: string, period: nat, contributors: nat, submissions: nat,
                       languages: set<string>, tactics: set<string>, channels: set<string>,
                       contributorBand: Option<string>, submissionBand: Option<string>, expiresAt: nat)

  /** Review may change the state and version of an aggregate, never its body. */
  datatype Review = PendingReview | Confirmed | Visible | Withheld
  datatype Aggregate = Aggregate(body: Body, review: Review, version: nat)

  datatype Phase =
    | Open
    | Frozen(publication: Publication)
    | Repairing(publication: Publication)
    | Published(publication: Publication, digest: Body)
    | Suppressed(publication: Publication)
  {
    predicate Final() { Published? || Suppressed? }
  }

  datatype Summary = Summary(version: nat, expiresAt: nat, contributors: nat, submissions: nat,
                             centroid: seq<real>, meta: Metadata, phase: Phase)

  /** The running totals of a paged recomputation. */
  datatype Partial = Partial(contributors: nat, submissions: nat, vectors: nat, sums: seq<real>, meta: Metadata)

  datatype Checkpoint = Checkpoint(revision: nat, summaryVersion: nat, cursor: Option<Token>,
                                   partial: Partial, cutoff: nat, expiresAt: nat)

  /** A row in a candidate's partition that no worker of the protocol wrote: left by an earlier
      version, restored, or damaged. Nothing is known about its period, form or deadline. */
  datatype Stray = Stray(wellFormed: bool, period: nat, expiresAt: nat)

  datatype Cell = Cell(period: nat, bucket: string, summary: Option<Summary>, rows: Rows,
                       checkpoint: Option<Checkpoint>, aggregate: Option<Aggregate>, strays: map<Token, Stray>)

  const NOTHING := Partial(0, 0, 0, [], EMPTY)

  // ---------------------------------------------------------------- reference values

  /** The contributions a computation with this cutoff considers. */
  function Unexpired(rows: Rows, cutoff: nat): (s: set<Token>) {
    set t | t in rows && rows[t].expiresAt > cutoff
  }

  function UpTo(s: set<Token>, cursor: Option<Token>): set<Token> {
    set t | t in s && cursor.Some? && t <= cursor.value
  }

  function Capped(row: Row): nat {
    if row.submissions <= 3 then row.submissions else 3
  }

  ghost function CappedMap(rows: Rows, s: set<Token>): map<nat, int>
    requires s <= rows.Keys
  {
    map t | t in s :: Capped(rows[t])
  }

  ghost function CappedSum(rows: Rows, s: set<Token>): int
    requires s <= rows.Keys
  {
    Total(CappedMap(rows, s))
  }

  ghost function Applied(rows: Rows, s: set<Token>): set<Token>
    requires s <= rows.Keys
  {
    set t | t in s && rows[t].vectorApplied
  }

  ghost predicate Dimension(rows: Rows, s: set<Token>, n: nat)
    requires s <= rows.Keys
  {
    forall t :: t in s ==> |rows[t].vector| == n
  }

  ghost function CoordinateMap(rows: Rows, s: set<Token>, n: nat, i: nat): map<nat, real>
    requires s <= rows.Keys && i < n && Dimension(rows, s, n)
  {
    map t | t in s :: rows[t].vector[i]
  }

  ghost function Coordinate(rows: Rows, s: set<Token>, n: nat, i: nat): real
    requires s <= rows.Keys && i < n && Dimension(rows, s, n)
  {
    RealTotal(CoordinateMap(rows, s, n, i))
  }

  ghost function AllMetadata(rows: Rows, s: set<Token>): Metadata
    requires s <= rows.Keys
  {
    Metadata(set t, x | t in s && x in rows[t].meta.lexical :: x,
             set t, x | t in s && x in rows[t].meta.signals :: x,
             set t, x | t in s && x in rows[t].meta.indicators :: x)
  }

  ghost predicate CountsOf(p: Partial, rows: Rows, s: set<Token>)
    requires s <= rows.Keys
  {
    p.contributors == |s| && p.submissions == CappedSum(rows, s)
  }

  ghost predicate VectorsOf(p: Partial, rows: Rows, a: set<Token>)
    requires a <= rows.Keys
  {
    && p.vectors == |a|
    && (p.vectors == 0 <==> p.sums == [])
    && Dimension(rows, a, |p.sums|)
    && (forall i :: 0 <= i < |p.sums| ==> p.sums[i] == Coordinate(rows, a, |p.sums|, i))
  }

  /** The totals are those of exactly the contributions in `s`. */
  ghost predicate TotalsOf(p: Partial, rows: Rows, s: set<Token>)
    requires s <= rows.Keys
  {
    && CountsOf(p, rows, s)
    && VectorsOf(p, rows, Applied(rows, s))
    && p.meta == Truncate(AllMetadata(rows, s))
  }

  // ---------------------------------------------------------------- one row of the fold

  predicate UsableVector(v: seq<real>) {
    1 <= |v| <= 384 && forall i :: 0 <= i < |v| ==> -1.0 <= v[i] <= 1.0
  }

  function Zip(a: seq<real>, b: seq<real>): (c: seq<real>)
    requires |a| == |b|
    ensures |c| == |a| && forall i :: 0 <= i < |a| ==> c[i] == a[i] + b[i]
  {
    seq(|a|, i requires 0 <= i < |a| => a[i] + b[i])
  }

  /** Adds one row to the totals; a row whose vector cannot be used stops the recomputation. */
  function AddRow(p: Partial, row: Row): (r: Option<Partial>) {
    if row.submissions < 1 then None
    else
      var q := p.(meta := Merge(p.meta, row.meta), contributors := p.contributors + 1,
                  submissions := p.submissions + Capped(row));
      if !row.vectorApplied then Some(q)
      else if !UsableVector(row.vector) then None
      else
        var sums := if p.sums == [] then seq(|row.vector|, i => 0.0) else p.sums;
        if |row.vector| != |sums| then None
        else Some(q.(sums := Zip(sums, row.vector), vectors := p.vectors + 1))
  }

  lemma AddRowCounts(p: Partial, rows: Rows, s: set<Token>, t: Token)
    requires s <= rows.Keys && t in rows && t !in s && CountsOf(p, rows, s)
    requires AddRow(p, rows[t]).Some?
    ensures s + {t} <= rows.Keys && CountsOf(AddRow(p, rows[t]).value, rows, s + {t})
  {
    assert CappedMap(rows, s + {t}) == CappedMap(rows, s)[t := Capped(rows[t])];
    TotalAdd(CappedMap(rows, s), t, Capped(rows[t]));
  }

  lemma AddVector(p: Partial, rows: Rows, a: set<Token>, t: Token)
    requires a <= rows.Keys && t in rows && t !in a && VectorsOf(p, rows, a)
    requires AddRow(p, rows[t]).Some? && rows[t].vectorApplied
    ensures a + {t} <= rows.Keys && VectorsOf(AddRow(p, rows[t]).value, rows, a + {t})
  {
    var q := AddRow(p, rows[t]).value;
    var a' := a + {t};
    if p.sums == [] { assert a == {}; }
    forall i | 0 <= i < |q.sums| ensures q.sums[i] == Coordinate(rows, a', |q.sums|, i) {
      var m := CoordinateMap(rows, a, |q.sums|, i);
      assert CoordinateMap(rows, a', |q.sums|, i) == m[t := rows[t].vector[i]];
      RealTotalAdd(m, t, rows[t].vector[i]);
      if p.sums == [] { assert m == map[]; }
    }
  }

  /** Adding a row that was not yet included includes it, whatever the order of the rows. */
  lemma AddRowSums(p: Partial, rows: Rows, s: set<Token>, t: Token)
    requires s <= rows.Keys && t in rows && t !in s && TotalsOf(p, rows, s)
    requires AddRow(p, rows[t]).Some?
    ensures s + {t} <= rows.Keys && TotalsOf(AddRow(p, rows[t]).value, rows, s + {t})
  {
    AddRowCounts(p, rows, s, t);
    if rows[t].vectorApplied {
      assert Applied(rows, s + {t}) == Applied(rows, s) + {t};
      AddVector(p, rows, Applied(rows, s), t);
    } else {
      assert Applied(rows, s + {t}) == Applied(rows, s);
    }
    MergeTruncates(AllMetadata(rows, s), rows[t].meta);
    assert AllMetadata(rows, s + {t}) == Union(AllMetadata(rows, s), rows[t].meta);
  }

  lemma NothingSums(rows: Rows)
    ensures TotalsOf(NOTHING, rows, {})
  {
    assert CappedMap(rows, {}) == map[];
    assert Applied(rows, {}) == {};
  }

  lemma {:induction false} CappedNonNegative(rows: Rows, s: set<Token>)
    requires s <= rows.Keys
    ensures CappedSum(rows, s) >= 0
    decreases |s|
  {
    if s == {} {
      assert CappedMap(rows, s) == map[];
    } else {
      var t :| t in s;
      CappedNonNegative(rows, s - {t});
      assert CappedMap(rows, s) == CappedMap(rows, s - {t})[t := Capped(rows[t])];
      TotalAdd(CappedMap(rows, s - {t}), t, Capped(rows[t]));
    }
  }
}
