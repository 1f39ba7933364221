/** Every submission a candidate reports is one event, counted once. */
module Conservation {
  import opened Basics
  import opened Sums
  import opened Candidate
  import opened CandidateSteps
  import opened Table
  import opened Observations
  import opened Protocol

  type History = Observations.History
  type Counts = map<EventId, (CandidateId, Token)>

  /** The events counted for contributions of these contributors. */
  ghost function CountedAmong(counted: Counts, c: CandidateId, s: set<Token>): set<EventId> {
    set e | e in counted && counted[e].0 == c && counted[e].1 in s
  }

  ghost predicate RowsCount(counted: Counts, c: CandidateId, rows: Rows) {
    forall t :: t in rows ==> rows[t].submissions == |CountedFor(counted, c, t)| && 1 <= rows[t].submissions <= 3
  }

  /** The capped sum over contributions is the number of distinct events counted for them. */
  lemma {:induction false} CappedSumCounts(counted: Counts, c: CandidateId, rows: Rows, s: set<Token>)
    requires s <= rows.Keys && RowsCount(counted, c, rows)
    ensures CappedSum(rows, s) == |CountedAmong(counted, c, s)|
    decreases |s|
  {
    if s == {} {
      assert CappedMap(rows, s) == map[];
      assert CountedAmong(counted, c, s) == {};
    } else {
      var t :| t in s;
      var rest := s - {t};
      CappedSumCounts(counted, c, rows, rest);
      assert CappedMap(rows, s) == CappedMap(rows, rest)[t := Capped(rows[t])];
      TotalAdd(CappedMap(rows, rest), t, Capped(rows[t]));
      assert CountedAmong(counted, c, s) == CountedAmong(counted, c, rest) + CountedFor(counted, c, t);
      assert CountedAmong(counted, c, rest) !! CountedFor(counted, c, t);
    }
  }

  /** Between one and three submissions for every contributor. */
  lemma CappedBounds(counted: Counts, c: CandidateId, rows: Rows, s: set<Token>)
    requires s <= rows.Keys && RowsCount(counted, c, rows)
    ensures |s| <= CappedSum(rows, s) <= 3 * |s|
  {
    var m := CappedMap(rows, s);
    assert m.Keys == s && |m| == |m.Keys|;
    TotalOneToThree(m);
  }

  lemma RowsCountNow(s: State, c: CandidateId)
    requires Table.Inv(s) && c in s.cells
    ensures RowsCount(s.counted, c, s.cells[c].rows)
  {
    assert CandidateSteps.Inv(s.cells[c]);
  }

  /** An event that was counted stays counted for the same contribution and is never counted again. */
  lemma CountedKept(s: State, x: Transaction, e: EventId)
    requires EventsOwned(s) && Sound(s, x) && e in s.counted
    ensures e in Apply(s, x).counted && Apply(s, x).counted[e] == s.counted[e]
    ensures x.counted.Some? ==> x.counted.value.0 != e
  {
  }

  lemma CountedAtMostOnce(h: History, steps: seq<Step>, i: nat, j: nat, e: EventId)
    requires Run(h, steps) && i <= j < |h| && e in h[i].counted
    ensures e in h[j].counted && h[j].counted[e] == h[i].counted[e]
  {
    var v := h[i].counted[e];
    var holds := (s: State) => e in s.counted && s.counted[e] == v;
    forall s, x | Table.Inv(s) && Sound(s, x) && holds(s) ensures holds(Apply(s, x)) {
      CountedKept(s, x, e);
    }
    RunKeeps(h, steps, i, j, holds);
  }

  // ---------------------------------------------------------------- summary counts

  /** The summary counts every contribution row and every submission in it. */
  ghost predicate Exact(c: Cell) {
    c.summary.Some? ==>
      c.summary.value.contributors == |c.rows| && c.summary.value.submissions == CappedSum(c.rows, c.rows.Keys)
  }

  predicate Erases(ch: Change) { ch.EraseLive? || ch.EraseFinal? || ch.EraseOrphan? }

  lemma CappedSumUpdate(rows: Rows, t: Token, row: Row)
    ensures CappedSum(rows[t := row], rows.Keys + {t}) ==
            CappedSum(rows, rows.Keys) + Capped(row) - if t in rows then Capped(rows[t]) else 0
  {
    var m := CappedMap(rows, rows.Keys);
    assert CappedMap(rows[t := row], rows.Keys + {t}) == m[t := Capped(row)];
    if t in rows { TotalUpdate(m, t, Capped(row)); } else { TotalAdd(m, t, Capped(row)); }
  }

  lemma MatchExact(c: Cell, seen: Summary, t: Token, row: Row)
    requires CandidateSteps.Inv(c) && Exact(c) && Admissible(c, Match(seen, t, row))
    ensures Exact(Next(c, Match(seen, t, row)))
  {
    OneRowMore(c.rows, t, row);
    assert Next(c, Match(seen, t, row)).rows == c.rows[t := row];
  }

  lemma OneRowMore(rows: Rows, t: Token, row: Row)
    requires t !in rows && row.submissions == 1
    ensures |rows[t := row]| == |rows| + 1
    ensures CappedSum(rows[t := row], rows[t := row].Keys) == CappedSum(rows, rows.Keys) + 1
  {
    assert rows[t := row].Keys == rows.Keys + {t};
    assert |rows[t := row]| == |rows[t := row].Keys| && |rows| == |rows.Keys|;
    CappedSumUpdate(rows, t, row);
  }

  lemma RepeatExact(c: Cell, seen: Summary, t: Token, expiresAt: nat)
    requires CandidateSteps.Inv(c) && Exact(c) && Admissible(c, Repeat(seen, t, expiresAt))
    ensures Exact(Next(c, Repeat(seen, t, expiresAt)))
  {
    var n := Next(c, Repeat(seen, t, expiresAt));
    assert n.rows.Keys == c.rows.Keys + {t} == c.rows.Keys;
    assert |n.rows| == |n.rows.Keys| && |c.rows| == |c.rows.Keys|;
    CappedSumUpdate(c.rows, t, n.rows[t]);
  }

  /** Everything but an erasure, or a recomputation that leaves expired rows out, keeps the counts
      exact; a recomputation that finds no expired row restores them. */
  lemma ExactKept(c: Cell, ch: Change)
    requires CandidateSteps.Inv(c) && Admissible(c, ch) && !Erases(ch)
    requires if ch.Finish? then Unexpired(c.rows, ch.saved.cutoff) == c.rows.Keys else Exact(c)
    ensures Exact(Next(c, ch))
  {
    match ch
    case Match(seen, t, row) => MatchExact(c, seen, t, row);
    case Repeat(seen, t, expiresAt) => RepeatExact(c, seen, t, expiresAt);
    case Finish(seen, saved, page, totals) =>
      PageExtendsFold(saved, c.rows, page, None);
      assert |c.rows| == |c.rows.Keys|;
    case _ =>
  }

  lemma FreshExact(c: Cell, t: Token, row: Row)
    requires Fresh(c, t, row)
    ensures Exact(c)
  {
    assert CappedMap(c.rows, c.rows.Keys) == map[][t := 1];
    TotalAdd(map[], t, 1);
  }

  /** The candidate is exact, and every event counted for it still has its contribution. */
  ghost predicate Tallied(s: State, c: CandidateId) {
    c in s.cells ==>
      && Exact(s.cells[c])
      && forall e :: e in s.counted && s.counted[e].0 == c ==> s.counted[e].1 in s.cells[c].rows
  }

  /** A transaction that erases nothing from the candidate and leaves no row out of a recount. */
  ghost predicate Gentle(s: State, x: Transaction, c: CandidateId) {
    x.cell.Modify? && x.cell.candidate == c && c in s.cells ==>
      && (Erases(x.cell.change) ==> x.cell.change.token !in s.cells[c].rows)
      && (x.cell.change.Finish? ==> Unexpired(s.cells[c].rows, x.cell.change.saved.cutoff) == s.cells[c].rows.Keys)
  }

  lemma AbsentErasureExact(c: Cell, ch: Change)
    requires Exact(c) && Admissible(c, ch) && Erases(ch) && ch.token !in c.rows
    ensures Exact(Next(c, ch))
  {
    ExactSame(c, Next(c, ch));
  }

  lemma ExactSame(c: Cell, n: Cell)
    requires Exact(c) && n.rows == c.rows
    requires n.summary.Some? ==>
               c.summary.Some? && n.summary.value.contributors == c.summary.value.contributors && n.summary.value.submissions == c.summary.value.submissions
    ensures Exact(n)
  {
  }

  lemma CellTallied(s: State, x: Transaction, c: CandidateId)
    requires CellsSound(s) && Sound(s, x) && Tallied(s, c) && Gentle(s, x, c) && c in Apply(s, x).cells
    ensures Exact(Apply(s, x).cells[c])
  {
    if x.cell.Create? && x.cell.candidate == c {
      FreshExact(x.cell.cell, x.counted.value.1.1, x.cell.cell.rows[x.counted.value.1.1]);
    } else if x.cell.Modify? && x.cell.candidate == c {
      if Erases(x.cell.change) { AbsentErasureExact(s.cells[c], x.cell.change); } else { ExactKept(s.cells[c], x.cell.change); }
    }
  }

  lemma RowsTallied(s: State, x: Transaction, c: CandidateId, e: EventId)
    requires Conserved(s) && Sound(s, x) && Tallied(s, c) && Gentle(s, x, c) && c in Apply(s, x).cells
    requires e in Apply(s, x).counted && Apply(s, x).counted[e].0 == c
    ensures Apply(s, x).counted[e].1 in Apply(s, x).cells[c].rows
  {
    var t := Apply(s, x).counted[e].1;
    if c in s.cells && t in s.cells[c].rows && x.cell.Modify? && x.cell.candidate == c {
      assert Erases(x.cell.change) ==> x.cell.change.token != t;
    }
  }

  lemma TalliedKept(s: State, x: Transaction, c: CandidateId)
    requires Table.Inv(s) && Sound(s, x) && Tallied(s, c) && Gentle(s, x, c)
    ensures Tallied(Apply(s, x), c)
  {
    if c in Apply(s, x).cells {
      CellTallied(s, x, c);
      forall e | e in Apply(s, x).counted && Apply(s, x).counted[e].0 == c ensures Apply(s, x).counted[e].1 in Apply(s, x).cells[c].rows {
        RowsTallied(s, x, c, e);
      }
    }
  }

  /** One step leaves the candidate's contributions in place and, if it is the last page of a
      recomputation, finds none of them expired. */
  ghost predicate LeavesInPlace(before: State, step: Step, after: State, c: CandidateId) {
    c in before.cells ==>
      && c in after.cells && before.cells[c].rows.Keys <= after.cells[c].rows.Keys
      && (step.Mend? && step.mend.RecomputeFinish? && step.mend.candidate == c && before.cells[c].checkpoint.Some? ==>
           Unexpired(before.cells[c].rows, before.cells[c].checkpoint.value.cutoff) == before.cells[c].rows.Keys)
  }

  /** Only a recomputation commits recomputed totals. */
  lemma OnlyFinishFinishes(h: History, k: nat, step: Step)
    requires k < |h| && Protocol.Enabled(h, k, step)
    requires Protocol.Writes(h, k, step).cell.Modify? && Protocol.Writes(h, k, step).cell.change.Finish?
    ensures step.Mend? && step.mend.RecomputeFinish? && step.mend.candidate == Protocol.Writes(h, k, step).cell.candidate
  {
  }

  lemma InPlaceIsGentle(s: State, x: Transaction, step: Step, c: CandidateId)
    requires Sound(s, x) && LeavesInPlace(s, step, Apply(s, x), c)
    requires x.cell.Modify? && x.cell.change.Finish? ==> step.Mend? && step.mend.RecomputeFinish? && step.mend.candidate == x.cell.candidate
    ensures Gentle(s, x, c)
  {
  }

  lemma StepTallied(h: History, steps: seq<Step>, k: nat, c: CandidateId)
    requires Run(h, steps) && k < |steps| && Tallied(h[k], c) && LeavesInPlace(h[k], steps[k], h[k + 1], c)
    ensures Tallied(h[k + 1], c)
  {
    var x := RunTransaction(h, steps, k);
    if x.cell.Modify? && x.cell.change.Finish? { OnlyFinishFinishes(h[..k + 1], k, steps[k]); }
    InPlaceIsGentle(h[k], x, steps[k], c);
    TalliedKept(h[k], x, c);
  }

  lemma {:induction false} TalliedAlong(h: History, steps: seq<Step>, k: nat, c: CandidateId)
    requires Run(h, steps) && k < |h| && forall i :: 0 <= i < k ==> LeavesInPlace(h[i], steps[i], h[i + 1], c)
    ensures Tallied(h[k], c)
  {
    if k > 0 {
      TalliedAlong(h, steps, k - 1, c);
      StepTallied(h, steps, k - 1, c);
    }
  }

  lemma TalliedCounts(counted: Counts, c: CandidateId, cell: Cell)
    requires RowsCount(counted, c, cell.rows) && Exact(cell) && cell.summary.Some?
    requires forall e :: e in counted && counted[e].0 == c ==> counted[e].1 in cell.rows
    ensures cell.summary.value.contributors == |cell.rows|
    ensures cell.summary.value.submissions == |set e | e in counted && counted[e].0 == c|
  {
    CappedSumCounts(counted, c, cell.rows, cell.rows.Keys);
    assert CountedAmong(counted, c, cell.rows.Keys) == set e | e in counted && counted[e].0 == c;
  }

  /** Over every interleaving of deliveries and redeliveries, an undisturbed candidate's summary
      counts its contributions, and its submissions are exactly the events counted for it. */
  lemma ClusterConservation(h: History, steps: seq<Step>, k: nat, c: CandidateId)
    requires Run(h, steps) && k < |h| && c in h[k].cells && h[k].cells[c].summary.Some?
    requires forall i :: 0 <= i < k ==> LeavesInPlace(h[i], steps[i], h[i + 1], c)
    ensures h[k].cells[c].summary.value.contributors == |h[k].cells[c].rows|
    ensures h[k].cells[c].summary.value.submissions == |set e | e in h[k].counted && h[k].counted[e].0 == c|
  {
    TalliedAlong(h, steps, k, c);
    RunInv(h, steps, k);
    RowsCountNow(h[k], c);
    TalliedCounts(h[k].counted, c, h[k].cells[c]);
  }

  lemma RowIsEvents(counted: Counts, c: CandidateId, rows: Rows, t: Token)
    requires RowsCount(counted, c, rows) && t in rows
    ensures 1 <= rows[t].submissions <= 3
    ensures rows[t].submissions == |set e | e in counted && counted[e] == (c, t)|
  {
    assert CountedFor(counted, c, t) == set e | e in counted && counted[e] == (c, t);
  }

  /** In every reachable state each contribution holds one to three submissions, one for every
      event counted for it. */
  lemma SubmissionsAreEvents(h: History, steps: seq<Step>, k: nat, c: CandidateId, t: Token)
    requires Run(h, steps) && k < |h| && c in h[k].cells && t in h[k].cells[c].rows
    ensures 1 <= h[k].cells[c].rows[t].submissions <= 3
    ensures h[k].cells[c].rows[t].submissions == |set e | e in h[k].counted && h[k].counted[e] == (c, t)|
  {
    RunInv(h, steps, k);
    RowsCountNow(h[k], c);
    RowIsEvents(h[k].counted, c, h[k].cells[c].rows, t);
  }
}
