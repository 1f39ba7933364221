/** The paged recomputation commits a snapshot: whatever happened between its pages, the summary it
    writes describes exactly the contributions present at that moment. */
module Snapshot {
  import opened Basics
  import opened Rounding
  import opened Candidate
  import opened CandidateSteps
  import opened Metadata
  import opened Table
  import opened Observations
  import opened Protocol
  import Repair

  /** The summary describes exactly the contributions in `s`. */
  ghost predicate Describes(summary: Summary, rows: Rows, s: set<Token>)
    requires s <= rows.Keys
  {
    var applied := Applied(rows, s);
    && summary.contributors == |s|
    && summary.submissions == CappedSum(rows, s)
    && summary.meta == Truncate(AllMetadata(rows, s))
    && applied != {}
    && Dimension(rows, applied, |summary.centroid|)
    && forall i :: 0 <= i < |summary.centroid| ==>
         summary.centroid[i] == Round7(Coordinate(rows, applied, |summary.centroid|, i) / |applied| as real)
  }

  ghost predicate SnapshotOf(before: Cell, after: Cell, cutoff: nat) {
    var s := Unexpired(before.rows, cutoff);
    && after.rows == before.rows && after.checkpoint.None?
    && (after.summary.None? <==> s == {})
    && (after.summary.Some? ==>
         && before.summary.Some?
         && after.summary.value.version == before.summary.value.version + 1
         && Describes(after.summary.value, before.rows, s)
         && (if before.summary.value.phase.Open? then after.summary.value.phase.Open?
             else before.summary.value.phase.Repairing? && after.summary.value.phase == Frozen(before.summary.value.phase.publication)))
  }

  lemma FinishTotals(c: Cell, seen: Summary, saved: Checkpoint, page: seq<Token>, totals: Partial)
    requires CandidateSteps.Inv(c) && Admissible(c, Finish(seen, saved, page, totals))
    ensures TotalsOf(totals, c.rows, Unexpired(c.rows, saved.cutoff))
  {
    PageExtendsFold(saved, c.rows, page, None);
  }

  lemma FinishSnapshot(c: Cell, seen: Summary, saved: Checkpoint, page: seq<Token>, totals: Partial)
    requires CandidateSteps.Inv(c) && Admissible(c, Finish(seen, saved, page, totals))
    ensures SnapshotOf(c, Next(c, Finish(seen, saved, page, totals)), saved.cutoff)
  {
    FinishTotals(c, seen, saved, page, totals);
  }

  /** Snapshot fence: at the commit of the last page of a recomputation. */
  lemma RecomputationIsSnapshot(h: History, steps: seq<Step>, k: nat, w: Worker, c: CandidateId, r: nat, q: nat, u: nat, page: seq<Token>)
    requires Run(h, steps) && k < |steps| && steps[k] == Mend(Repair.RecomputeFinish(w, c, r, q, u, page))
    ensures c in h[k].cells && c in h[k + 1].cells && h[k].cells[c].checkpoint.Some?
    ensures SnapshotOf(h[k].cells[c], h[k + 1].cells[c], h[k].cells[c].checkpoint.value.cutoff)
  {
    var x := RunTransaction(h, steps, k);
    var ch := x.cell.change;
    FinishSnapshot(h[k].cells[c], ch.seen, ch.saved, ch.page, ch.totals);
  }

  /** The commit that led to this moment finished a recomputation of the candidate: it took the checkpoint
      away, and left the snapshot by that checkpoint's cutoff. */
  ghost predicate FinishedAt(h: History, v: nat, c: CandidateId) {
    && 0 < v < |h| && c in h[v - 1].cells && c in h[v].cells && h[v - 1].cells[c].checkpoint.Some?
    && SnapshotOf(h[v - 1].cells[c], h[v].cells[c], h[v - 1].cells[c].checkpoint.value.cutoff)
  }

  lemma FinishedRepairs(h: History, v: nat, c: CandidateId)
    requires FinishedAt(h, v, c)
    ensures RepairedAt(h, v, c)
  {
  }
}
