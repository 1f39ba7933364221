/** Everything one committed transaction can do to a candidate, the invariant every such change
    keeps, and what one state of a candidate says about every later one. */
module CandidateSteps {
  import opened Basics
  import opened Metadata
  import opened Rounding
  import opened Candidate
  import opened Dimensions
  import opened Paging

  datatype Change =
    | Match(seen: Summary, token: Token, row: Row)
    | Repeat(seen: Summary, token: Token, expiresAt: nat)
    | EraseLive(seen: Summary, token: Token)
    | EraseFinal(token: Token)
    | EraseOrphan(token: Token)
    | Restart(seen: Summary, cutoff: nat)
    | Advance(saved: Checkpoint, page: seq<Token>, partial: Partial)
    | Finish(seen: Summary, saved: Checkpoint, page: seq<Token>, totals: Partial)
    | DropCheckpoint
    | Freeze(seen: Summary, publication: Publication)
    | Publish(seen: Summary, now: nat, body: Body)
    | Suppress(seen: Summary)
    | Retire
    | Review(review: Review, version: nat)
    | Appear(token: Token, stray: Stray)

  // ---------------------------------------------------------------- pages

  /** A page of contributions in key order. */
  ghost predicate IsPage(rows: Rows, cursor: Option<Token>, page: seq<Token>, last: Option<Token>, limit: nat) {
    IsPageOf(rows.Keys, cursor, page, last, limit)
  }

  /** The recomputation's loop over the first `n` rows of a page. */
  function FoldPage(p: Partial, rows: Rows, page: seq<Token>, n: nat, cutoff: nat): Option<Partial>
    requires n <= |page| && forall i :: 0 <= i < n ==> page[i] in rows
  {
    if n == 0 then Some(p)
    else
      match FoldPage(p, rows, page, n - 1, cutoff)
      case None => None
      case Some(q) => if rows[page[n - 1]].expiresAt <= cutoff then Some(q) else AddRow(q, rows[page[n - 1]])
  }

  ghost function Taken(rows: Rows, page: seq<Token>, n: nat, cutoff: nat): set<Token>
    requires n <= |page| && forall i :: 0 <= i < |page| ==> page[i] in rows
  {
    set i | 0 <= i < n && rows[page[i]].expiresAt > cutoff :: page[i]
  }

  lemma TakenStep(rows: Rows, page: seq<Token>, n: nat, cutoff: nat)
    requires 0 < n <= |page| && forall i :: 0 <= i < |page| ==> page[i] in rows
    requires forall i, j :: 0 <= i < j < |page| ==> page[i] < page[j]
    ensures page[n - 1] !in Taken(rows, page, n - 1, cutoff)
    ensures Taken(rows, page, n, cutoff) ==
            Taken(rows, page, n - 1, cutoff) + if rows[page[n - 1]].expiresAt <= cutoff then {} else {page[n - 1]}
  {
  }

  /** A relation between totals and included rows that one row keeps, a whole page keeps. */
  lemma {:induction false} FoldPageKeeps(holds: (Partial, set<Token>) -> bool, p: Partial, rows: Rows, s: set<Token>,
                                         page: seq<Token>, n: nat, cutoff: nat)
    requires holds(p, s)
    requires forall q, u, t :: holds(q, u) && t in rows && t !in u && AddRow(q, rows[t]).Some?
               ==> holds(AddRow(q, rows[t]).value, u + {t})
    requires n <= |page| && forall i :: 0 <= i < |page| ==> page[i] in rows && page[i] !in s
    requires forall i, j :: 0 <= i < j < |page| ==> page[i] < page[j]
    requires FoldPage(p, rows, page, n, cutoff).Some?
    ensures holds(FoldPage(p, rows, page, n, cutoff).value, s + Taken(rows, page, n, cutoff))
  {
    var after := s + Taken(rows, page, n, cutoff);
    if n == 0 {
      assert after == s;
    } else {
      FoldPageKeeps(holds, p, rows, s, page, n - 1, cutoff);
      TakenStep(rows, page, n, cutoff);
      var before := s + Taken(rows, page, n - 1, cutoff);
      if rows[page[n - 1]].expiresAt <= cutoff {
        assert after == before;
      } else {
        assert after == before + {page[n - 1]};
      }
    }
  }

  lemma FoldPageSums(p: Partial, rows: Rows, s: set<Token>, page: seq<Token>, cutoff: nat)
    requires s <= rows.Keys && TotalsOf(p, rows, s)
    requires forall i :: 0 <= i < |page| ==> page[i] in rows && page[i] !in s
    requires forall i, j :: 0 <= i < j < |page| ==> page[i] < page[j]
    requires FoldPage(p, rows, page, |page|, cutoff).Some?
    ensures s + Taken(rows, page, |page|, cutoff) <= rows.Keys
    ensures TotalsOf(FoldPage(p, rows, page, |page|, cutoff).value, rows, s + Taken(rows, page, |page|, cutoff))
  {
    var holds := (q: Partial, u: set<Token>) => u <= rows.Keys && TotalsOf(q, rows, u);
    forall q, u, t | holds(q, u) && t in rows && t !in u && AddRow(q, rows[t]).Some?
      ensures holds(AddRow(q, rows[t]).value, u + {t})
    {
      AddRowSums(q, rows, u, t);
    }
    FoldPageKeeps(holds, p, rows, s, page, |page|, cutoff);
  }

  lemma PageCovers(rows: Rows, cutoff: nat, cursor: Option<Token>, page: seq<Token>, last: Option<Token>)
    requires IsPage(rows, cursor, page, last, |page|)
    ensures UpTo(Unexpired(rows, cutoff), cursor) + Taken(rows, page, |page|, cutoff) ==
            if last.Some? then UpTo(Unexpired(rows, cutoff), last) else Unexpired(rows, cutoff)
  {
    var s, taken := UpTo(Unexpired(rows, cutoff), cursor), Taken(rows, page, |page|, cutoff);
    var goal := if last.Some? then UpTo(Unexpired(rows, cutoff), last) else Unexpired(rows, cutoff);
    forall t ensures t in s + taken <==> t in goal {
      if t in goal && t !in s {
        assert Behind(t, cursor);
        assert t in page;
        var i :| 0 <= i < |page| && page[i] == t;
      }
    }
  }

  /** A page turns the fold up to the old cursor into the fold up to the new one. */
  lemma PageExtendsFold(saved: Checkpoint, rows: Rows, page: seq<Token>, last: Option<Token>)
    requires TotalsOf(saved.partial, rows, UpTo(Unexpired(rows, saved.cutoff), saved.cursor))
    requires IsPage(rows, saved.cursor, page, last, |page|)
    requires FoldPage(saved.partial, rows, page, |page|, saved.cutoff).Some?
    ensures TotalsOf(FoldPage(saved.partial, rows, page, |page|, saved.cutoff).value, rows,
                   if last.Some? then UpTo(Unexpired(rows, saved.cutoff), last) else Unexpired(rows, saved.cutoff))
  {
    var s := UpTo(Unexpired(rows, saved.cutoff), saved.cursor);
    assert forall i :: 0 <= i < |page| ==> page[i] !in s;
    PageCovers(rows, saved.cutoff, saved.cursor, page, last);
    FoldPageSums(saved.partial, rows, s, page, saved.cutoff);
  }

  /** A stray lies among the keys of a page. */
  predicate StrayOn(strays: map<Token, Stray>, cursor: Option<Token>, last: Option<Token>) {
    exists t :: t in strays && Behind(t, cursor) && (last.None? || t <= last.value)
  }

  /** A page of the whole partition that met contributions only. */
  ghost predicate CleanPage(c: Cell, cursor: Option<Token>, page: seq<Token>, last: Option<Token>, limit: nat) {
    IsPage(c.rows, cursor, page, last, limit) && !StrayOn(c.strays, cursor, last)
  }

  /** Everything the partition holds, with its deadline. */
  function Deadlines(c: Cell): map<Token, nat> {
    map t | t in c.rows.Keys + c.strays.Keys :: if t in c.rows then c.rows[t].expiresAt else c.strays[t].expiresAt
  }

  // ---------------------------------------------------------------- changes

  function UpdatedCentroid(current: seq<real>, contributors: nat, vector: seq<real>): seq<real> {
    if current == [] then vector
    else
      var n := if |current| <= |vector| then |current| else |vector|;
      seq(n, i requires 0 <= i < n =>
        Round7((current[i] * contributors as real + vector[i]) / (contributors + 1) as real))
  }

  function MeanCentroid(p: Partial): seq<real>
    requires p.vectors > 0
  {
    seq(|p.sums|, i requires 0 <= i < |p.sums| => Round7(p.sums[i] / p.vectors as real))
  }

  function Recomputed(seen: Summary, p: Partial): Option<Summary>
    requires p.contributors == 0 || p.vectors > 0
  {
    if p.contributors == 0 then None
    else Some(seen.(version := seen.version + 1, contributors := p.contributors, submissions := p.submissions,
                    centroid := MeanCentroid(p), meta := p.meta,
                    phase := if seen.phase.Repairing? then Frozen(seen.phase.publication) else seen.phase))
  }

  /** The condition under which a change may be committed to the current cell. */
  ghost predicate Admissible(c: Cell, ch: Change) {
    match ch
    case Match(seen, t, row) =>
      && c.summary == Some(seen) && seen.phase.Open? && t !in c.rows && t !in c.strays
      && row.submissions == 1 && UsableVector(row.vector)
    case Repeat(seen, t, expiresAt) =>
      && c.summary == Some(seen) && seen.phase.Open? && t in c.rows && c.rows[t].submissions < MAX_SUBMISSIONS
    case EraseLive(seen, _) =>
      c.summary == Some(seen) && !seen.phase.Final()
    case EraseFinal(_) =>
      c.summary.Some? && c.summary.value.phase.Final()
    case EraseOrphan(_) =>
      c.summary.None?
    case Restart(seen, _) =>
      c.summary == Some(seen) && (seen.phase.Open? || seen.phase.Repairing?)
    case Advance(saved, page, partial) =>
      && c.summary.Some? && (c.summary.value.phase.Open? || c.summary.value.phase.Repairing?)
      && c.checkpoint == Some(saved) && saved.summaryVersion == c.summary.value.version
      && page != [] && IsPage(c.rows, saved.cursor, page, Some(page[|page| - 1]), |page|)
      && FoldPage(saved.partial, c.rows, page, |page|, saved.cutoff) == Some(partial)
    case Finish(seen, saved, page, totals) =>
      && c.summary == Some(seen) && (seen.phase.Open? || seen.phase.Repairing?)
      && c.checkpoint == Some(saved) && saved.summaryVersion == seen.version
      && IsPage(c.rows, saved.cursor, page, None, |page|)
      && FoldPage(saved.partial, c.rows, page, |page|, saved.cutoff) == Some(totals)
      && (totals.contributors == 0 || totals.vectors > 0)
    case DropCheckpoint =>
      c.summary.None?
    case Freeze(seen, _) =>
      c.summary == Some(seen) && seen.phase.Open? && c.checkpoint.None?
    case Publish(seen, now, body) =>
      && c.summary == Some(seen) && seen.phase.Frozen? && c.aggregate.None?
      && body == BodyOf(c.bucket, c.period, c.rows, seen.phase.publication, now)
      && |Unexpired(c.rows, now)| >= MINIMUM_CONTRIBUTORS
    case Suppress(seen) =>
      c.summary == Some(seen) && seen.phase.Frozen? && c.aggregate.None?
    case Retire =>
      c.summary.Some? && c.summary.value.phase.Final() && c.checkpoint.None? && c.rows == map[]
    case Review(_, _) =>
      c.aggregate.Some?
    case Appear(t, _) =>
      c.summary.Some? && t !in c.rows && t !in c.strays
  }

  function Next(c: Cell, ch: Change): Cell
    requires Admissible(c, ch)
  {
    match ch
    case Match(seen, t, row) =>
      c.(rows := c.rows[t := row],
         summary := Some(seen.(centroid := UpdatedCentroid(seen.centroid, seen.contributors, row.vector),
                               contributors := seen.contributors + 1, submissions := seen.submissions + 1,
                               version := seen.version + 1, meta := Merge(seen.meta, row.meta))))
    case Repeat(seen, t, expiresAt) =>
      c.(rows := c.rows[t := c.rows[t].(submissions := c.rows[t].submissions + 1, expiresAt := expiresAt)],
         summary := Some(seen.(submissions := seen.submissions + 1, version := seen.version + 1)))
    case EraseLive(seen, t) =>
      c.(rows := c.rows - {t}, strays := c.strays - {t},
         summary := Some(seen.(version := seen.version + 1,
                               phase := if seen.phase.Open? then Open else Repairing(seen.phase.publication))))
    case EraseFinal(t) => c.(rows := c.rows - {t}, strays := c.strays - {t})
    case EraseOrphan(t) => c.(rows := c.rows - {t}, strays := c.strays - {t})
    case Restart(seen, cutoff) =>
      var revision := if c.checkpoint.None? then 1 else c.checkpoint.value.revision + 1;
      c.(checkpoint := Some(Checkpoint(revision, seen.version, None, NOTHING, cutoff, seen.expiresAt)))
    case Advance(saved, page, partial) =>
      c.(checkpoint := Some(saved.(revision := saved.revision + 1, cursor := Some(page[|page| - 1]), partial := partial)))
    case Finish(seen, saved, page, totals) =>
      c.(summary := Recomputed(seen, totals), checkpoint := None)
    case DropCheckpoint => c.(checkpoint := None)
    case Freeze(seen, publication) =>
      c.(summary := Some(seen.(version := seen.version + 1, phase := Frozen(publication))))
    case Publish(seen, now, body) =>
      c.(summary := Some(seen.(phase := Published(seen.phase.publication, body))),
         aggregate := Some(Aggregate(body, PendingReview, 1)))
    case Suppress(seen) =>
      c.(summary := Some(seen.(phase := Suppressed(seen.phase.publication))))
    case Retire => c.(summary := None)
    case Review(review, version) =>
      c.(aggregate := Some(c.aggregate.value.(review := review, version := version)))
    case Appear(t, stray) => c.(strays := c.strays[t := stray])
  }

  // ---------------------------------------------------------------- invariant

  ghost predicate Inv(c: Cell) {
    && c.rows.Keys !! c.strays.Keys
    && (forall t :: t in c.rows ==> 1 <= c.rows[t].submissions <= MAX_SUBMISSIONS && UsableVector(c.rows[t].vector))
    && (c.summary.Some? ==>
      var s := c.summary.value;
      && s.version >= 1
      && (!s.phase.Published? ==> c.aggregate.None?)
      && (s.phase.Frozen? || s.phase.Final() ==> c.checkpoint.None?)
      && (s.phase.Published? ==>
        && c.aggregate.Some? && c.aggregate.value.body == s.phase.digest
        && s.phase.digest.expiresAt == s.phase.publication.startedAt + AGGREGATE_SECONDS)
      && (c.checkpoint.Some? && c.checkpoint.value.summaryVersion == s.version ==>
        var k := c.checkpoint.value;
        TotalsOf(k.partial, c.rows, UpTo(Unexpired(c.rows, k.cutoff), k.cursor)))
      && (c.checkpoint.Some? ==> c.checkpoint.value.summaryVersion <= s.version))
  }

  /** A fresh candidate holds its first contribution and nothing else. */
  ghost predicate Fresh(c: Cell, t: Token, row: Row) {
    && row.submissions == 1 && UsableVector(row.vector)
    && c.rows == map[t := row] && c.strays == map[] && c.checkpoint.None? && c.aggregate.None?
    && c.summary == Some(Summary(1, row.expiresAt, 1, 1, row.vector, row.meta, Open))
  }

  lemma InvKept(c: Cell, ch: Change)
    requires Inv(c) && Admissible(c, ch)
    ensures Inv(Next(c, ch))
  {
    if ch.Restart? || ch.Advance? {
      TotalsKept(c, ch);
    } else if ch.Match? || ch.Repeat? || ch.EraseLive? || ch.EraseFinal? || ch.EraseOrphan? || ch.Appear? {
      RowsKept(c, ch);
    } else {
      PhaseKept(c, ch);
    }
  }

  lemma TotalsKept(c: Cell, ch: Change)
    requires Inv(c) && Admissible(c, ch) && (ch.Restart? || ch.Advance?)
    ensures Inv(Next(c, ch))
  {
    match ch
    case Restart(seen, cutoff) =>
      assert UpTo(Unexpired(c.rows, cutoff), None) == {};
      NothingSums(c.rows);
    case Advance(saved, page, _) =>
      PageExtendsFold(saved, c.rows, page, Some(page[|page| - 1]));
  }

  lemma RowsKept(c: Cell, ch: Change)
    requires Inv(c) && Admissible(c, ch)
    requires ch.Match? || ch.Repeat? || ch.EraseLive? || ch.EraseFinal? || ch.EraseOrphan? || ch.Appear?
    ensures Inv(Next(c, ch))
  {
  }

  lemma PhaseKept(c: Cell, ch: Change)
    requires Inv(c) && Admissible(c, ch)
    requires !(ch.Restart? || ch.Advance? || ch.Match? || ch.Repeat? || ch.EraseLive? || ch.EraseFinal? || ch.EraseOrphan? || ch.Appear?)
    ensures Inv(Next(c, ch))
  {
  }

  // ---------------------------------------------------------------- what later states keep

  ghost predicate PublicationKept(a: Phase, b: Phase) {
    !a.Open? ==> !b.Open? && b.publication == a.publication
  }

  ghost predicate SummaryEvolves(a: Cell, b: Cell)
    requires a.summary.Some? && b.summary.Some?
  {
    var s, t := a.summary.value, b.summary.value;
    && s.version <= t.version
    && PublicationKept(s.phase, t.phase)
    && (!s.phase.Final() && !t.phase.Final() && s.version == t.version ==> s == t && a.rows == b.rows)
    && (s.phase.Final() ==> s == t && Shrinks(a.rows, b.rows))
  }

  /** `b` is a possible later state of the candidate that was once `a`. */
  ghost predicate Evolves(a: Cell, b: Cell) {
    && b.period == a.period && b.bucket == a.bucket
    && (a.aggregate.Some? ==> b.aggregate.Some? && b.aggregate.value.body == a.aggregate.value.body)
    && (a.summary.None? ==>
         && b.summary.None? && Shrinks(a.rows, b.rows) && Shrinks(a.strays, b.strays)
         && (a.aggregate.None? ==> b.aggregate.None?))
    && (a.summary.Some? && b.summary.Some? ==> SummaryEvolves(a, b))
  }

  lemma EvolvesStep(c: Cell, ch: Change)
    requires Inv(c) && Admissible(c, ch)
    ensures Evolves(c, Next(c, ch))
  {
  }

  lemma EvolvesTransitive(a: Cell, b: Cell, c: Cell)
    requires Evolves(a, b) && Evolves(b, c)
    ensures Evolves(a, c)
  {
  }

  /** The version fence: while the summary keeps its version, no contribution has changed. */
  lemma Fence(a: Cell, b: Cell, c: Cell)
    requires Evolves(a, b) && Evolves(b, c)
    requires a.summary.Some? && !a.summary.value.phase.Final()
    requires c.summary.Some? && !c.summary.value.phase.Final() && c.summary.value.version == a.summary.value.version
    ensures b.summary == a.summary == c.summary && b.rows == c.rows == a.rows
  {
  }

  /** The edges of the publication state machine; `None` is a candidate whose summary is gone. */
  ghost predicate PhaseEdge(a: Option<Summary>, b: Option<Summary>) {
    match (a, b)
    case (None, None) => true
    case (None, Some(_)) => false
    case (Some(s), None) => s.phase.Open? || s.phase.Repairing? || s.phase.Final()
    case (Some(s), Some(t)) =>
      || t.phase == s.phase
      || (s.phase.Open? && t.phase.Frozen?)
      || (s.phase.Frozen? && t.phase == Repairing(s.phase.publication))
      || (s.phase.Repairing? && t.phase == Frozen(s.phase.publication))
      || (s.phase.Frozen? && t.phase.Published? && t.phase.publication == s.phase.publication)
      || (s.phase.Frozen? && t.phase == Suppressed(s.phase.publication))
  }

  lemma PhaseEdges(c: Cell, ch: Change)
    requires Inv(c) && Admissible(c, ch)
    ensures PhaseEdge(c.summary, Next(c, ch).summary)
  {
  }
}
