/** What a traversal that went on leaves behind: every candidate it erased a contribution from has been
    repaired since. */
module RepairedRuns {
  import opened Basics
  import opened Candidate
  import opened CandidateSteps
  import opened Table
  import opened Observations
  import opened Fences
  import opened Protocol
  import opened Snapshot
  import opened Erasure
  import Traversal

  type History = Observations.History

  /** At this moment the contributor has no row in the candidate, and the candidate needs no repair: its
      summary is gone, or frozen, or exactly the snapshot of the rows that are left. */
  ghost predicate Repaired(h: History, v: nat, c: CandidateId, t: Token) {
    && v < |h| && c in h[v].cells && t !in h[v].cells[c].rows && h[v].cells[c].checkpoint.None?
    && (h[v].cells[c].summary.Some? ==>
         h[v].cells[c].summary.value.phase.Frozen? || (h[v].cells[c].summary.value.phase.Open? && FinishedAt(h, v, c)))
  }

  // ---------------------------------------------------------------- a checkpoint goes with a snapshot

  lemma CheckpointTaken(cell: Cell, ch: Change)
    requires CandidateSteps.Inv(cell) && Admissible(cell, ch)
    requires cell.checkpoint.Some? && Next(cell, ch).checkpoint.None? && Next(cell, ch).summary.Some?
    ensures SnapshotOf(cell, Next(cell, ch), cell.checkpoint.value.cutoff)
  {
    FinishSnapshot(cell, ch.seen, ch.saved, ch.page, ch.totals);
  }

  lemma CheckpointWritten(s: State, x: Transaction, c: CandidateId)
    requires Table.Inv(s) && Sound(s, x) && c in s.cells && s.cells[c].checkpoint.Some?
    requires Apply(s, x).cells[c].checkpoint.None? && Apply(s, x).cells[c].summary.Some?
    ensures SnapshotOf(s.cells[c], Apply(s, x).cells[c], s.cells[c].checkpoint.value.cutoff)
  {
    assert CandidateSteps.Inv(s.cells[c]);
    CheckpointTaken(s.cells[c], x.cell.change);
  }

  /** In a run only a finished recomputation leaves an open candidate without the checkpoint it had. */
  lemma OpenAndRepaired(h: History, steps: seq<Step>, v: nat, c: CandidateId)
    requires Run(h, steps) && RepairedAt(h, v, c) && h[v].cells[c].summary.Some? && h[v].cells[c].summary.value.phase.Open?
    ensures FinishedAt(h, v, c)
  {
    var x := RunEffect(h, steps, v - 1);
    CheckpointWritten(h[v - 1], x, c);
  }

  // ---------------------------------------------------------------- the recomputation of one candidate

  /** The traversal is at the recomputation of this candidate. */
  predicate Recomputes(part: Part, c: CandidateId) {
    CleanupOf(part).Some? && CleanupOf(part).value.Recompute? && CleanupOf(part).value.locator.key == CandidateKey(c)
  }

  lemma RecomputesWithoutRow(s: State, p: Partition, c: CandidateId)
    requires Table.Inv(s) && SweptPart(PartOf(s, p)) && Recomputes(PartOf(s, p), c)
    ensures c in s.cells && s.cells[c].period == p.period && p.token !in s.cells[c].rows
  {
    assert p in s.parts && KnownCleanup(s, p, CleanupOf(PartOf(s, p)).value);
    assert p == Partition(p.period, p.token);
  }

  lemma RepairedHere(h: History, steps: seq<Step>, v: nat, p: Partition, c: CandidateId)
    requires Run(h, steps) && RepairedAt(h, v, c) && p.token !in h[v].cells[c].rows
    ensures Repaired(h, v, c, p.token)
  {
    if h[v].cells[c].summary.Some? && h[v].cells[c].summary.value.phase.Open? { OpenAndRepaired(h, steps, v, c); }
  }

  lemma RepairedLater(h: History, h': History, v: nat, c: CandidateId, t: Token)
    requires Repaired(h, v, c, t) && h <= h'
    ensures Repaired(h', v, c, t)
  {
  }

  /** The contributor whose erasure is being repaired has no row there any more, now or later. */
  lemma RowGone(h: History, steps: seq<Step>, r: nat, v: nat, p: Partition, c: CandidateId)
    requires Run(h, steps) && r <= v < |h| && Recomputes(PartOf(h[r], p), c)
    ensures c in h[v].cells && p.token !in h[v].cells[c].rows
  {
    RunInv(h, steps, r);
    RunSwept(h, steps, r, p);
    RecomputesWithoutRow(h[r], p, c);
    RunEvolves(h, steps, r, v);
    assert CandidateSteps.Evolves(h[r].cells[c], h[v].cells[c]);
    if p.token in h[v].cells[c].rows { FencedDeadlines(h, steps, r, v, c, p); }
  }

  // ---------------------------------------------------------------- what leaves a live candidate

  /** A summary that still counts contributions: not gone, published or suppressed. */
  predicate Live(cell: Cell) { cell.summary.Some? && !cell.summary.value.phase.Final() }

  /** A contribution to a live candidate goes between two states. */
  predicate RowLeaves(before: State, after: State, c: CandidateId, p: Partition) {
    && c in before.cells && c in after.cells && before.cells[c].period == p.period && Live(before.cells[c])
    && p.token in before.cells[c].rows && p.token !in after.cells[c].rows
  }

  lemma LeavesByErasure(s: State, x: Transaction, c: CandidateId, p: Partition)
    requires Sound(s, x) && RowLeaves(s, Apply(s, x), c, p)
    ensures x.cell.Modify? && x.cell.candidate == c && x.cell.change.EraseLive? && x.cell.change.token == p.token
  {
  }

  /** The step erases a contribution that the traversal of this partition has selected. */
  ghost predicate ErasesFrom(h: History, k: nat, step: Step, p: Partition, c: CandidateId)
    requires k < |h|
  {
    && MovesTraversal(step, p) && step.traverse.EraseContribution? && FenceSeen(h, step.traverse.r, p)
    && FenceAt(h, step.traverse.r, p).cleanup.Some? && FenceAt(h, step.traverse.r, p).cleanup.value.Delete?
    && FenceAt(h, step.traverse.r, p).cleanup.value.locator.key == CandidateKey(c)
  }

  lemma OnlySweepsErase(h: History, k: nat, step: Step, c: CandidateId, p: Partition)
    requires k < |h| && Protocol.Enabled(h, k, step) && c in h[k].cells && h[k].cells[c].period == p.period
    requires var x := Protocol.Writes(h, k, step); x.cell.Modify? && x.cell.candidate == c && x.cell.change.EraseLive? && x.cell.change.token == p.token
    requires p.token in h[k].cells[c].rows
    ensures ErasesFrom(h, k, step, p, c)
  {
  }

  // ---------------------------------------------------------------- from the erasure to the next locator

  lemma ErasureRecomputes(h: History, k: nat, step: Step, p: Partition, c: CandidateId)
    requires Coherent(h, k) && Protocol.Enabled(h, k, step) && ErasesFrom(h, k, step, p, c)
    requires Sound(h[k], Protocol.Writes(h, k, step))
    ensures var after := PartOf(Apply(h[k], Protocol.Writes(h, k, step)), p);
            Recomputes(after, c) && after.tombstone.value.cleanupRevision > Revision(PartOf(h[k], p))
  {
    PartAfter(h[k], Protocol.Writes(h, k, step), p);
  }

  function Revision(part: Part): nat { if part.tombstone.Some? then part.tombstone.value.cleanupRevision else 0 }

  lemma OthersKeepTraversal(h: History, k: nat, step: Step, p: Partition)
    requires k < |h| && Protocol.Enabled(h, k, step) && !MovesTraversal(step, p) && Fenced(h[k], p)
    ensures var x := Protocol.Writes(h, k, step);
            x.fence.Some? && x.fence.value.0 == p ==> x.fence.value.1.cleanup == CleanupOf(PartOf(h[k], p))
  {
  }

  lemma CleanupAfter(s: State, x: Transaction, p: Partition)
    requires Sound(s, x) && (x.fence.Some? && x.fence.value.0 == p ==> x.fence.value.1.cleanup == CleanupOf(PartOf(s, p)))
    ensures CleanupOf(PartOf(Apply(s, x), p)) == CleanupOf(PartOf(s, p))
  {
    PartAfter(s, x, p);
  }

  /** A traversal step on a partition at its recomputation: another operation takes it over, or the operation
      itself goes on, which it has earned. */
  ghost predicate GoesOn(h: History, k: nat, step: Step, p: Partition, c: CandidateId)
    requires k < |h|
  {
    && MovesTraversal(step, p) && step.traverse.MoveCleanup? && step.traverse.r <= step.traverse.q <= k
    && Recomputes(PartOf(h[step.traverse.r], p), c) && RepairedAt(h, step.traverse.q, c)
    && Revision(PartOf(h[step.traverse.r], p)) == Revision(PartOf(h[k], p))
  }

  lemma TraversalStays(h: History, k: nat, step: Step, p: Partition, c: CandidateId)
    requires Coherent(h, k) && Protocol.Enabled(h, k, step) && MovesTraversal(step, p) && Recomputes(PartOf(h[k], p), c)
    requires Sound(h[k], Protocol.Writes(h, k, step))
    ensures Recomputes(PartOf(Apply(h[k], Protocol.Writes(h, k, step)), p), c) || GoesOn(h, k, step, p, c)
  {
    ReadsStillHold(h, k, step.traverse.r, step.traverse.q, p);
    PartAfter(h[k], Protocol.Writes(h, k, step), p);
  }

  lemma StepStays(h: History, steps: seq<Step>, k: nat, p: Partition, c: CandidateId)
    requires Run(h, steps) && k < |steps| && Recomputes(PartOf(h[k], p), c)
    ensures Recomputes(PartOf(h[k + 1], p), c) || GoesOn(h, k, steps[k], p, c)
  {
    RunApplies(h, steps, k);
    if MovesTraversal(steps[k], p) {
      RunCoherent(h, steps, k);
      CoherentPrefix(h, k);
      TraversalStays(h[..k + 1], k, steps[k], p, c);
    } else {
      OthersKeepTraversal(h[..k + 1], k, steps[k], p);
      CleanupAfter(h[k], Protocol.Writes(h[..k + 1], k, steps[k]), p);
    }
  }

  lemma RevisionGrows(h: History, steps: seq<Step>, i: nat, j: nat, p: Partition)
    requires Run(h, steps) && i <= j < |h| && Fenced(h[i], p)
    ensures Revision(PartOf(h[i], p)) <= Revision(PartOf(h[j], p))
  {
    RunEvolves(h, steps, i, j);
    PartsEvolve(h[i], h[j], p);
  }

  /** The evidence with which the recomputation was left is newer than the erasure. */
  lemma EvidenceIsNew(h: History, steps: seq<Step>, j: nat, k: nat, p: Partition, c: CandidateId)
    requires Run(h, steps) && j < k < |steps| && GoesOn(h, k, steps[k], p, c)
    requires Fenced(h[j], p) && Revision(PartOf(h[j], p)) < Revision(PartOf(h[j + 1], p))
    ensures j < steps[k].traverse.q <= k && Repaired(h, steps[k].traverse.q, c, p.token)
  {
    var r, q := steps[k].traverse.r, steps[k].traverse.q;
    if q <= j {
      RevisionGrows(h, steps, r, j, p);
      StillFenced(h, steps, j, j + 1, p);
      RevisionGrows(h, steps, j + 1, k, p);
    }
    RowGone(h, steps, r, q, p, c);
    RepairedHere(h, steps, q, p, c);
  }

  /** The candidate has been repaired between the step with that number and this moment. */
  ghost predicate RepairedSince(h: History, j: nat, k: nat, c: CandidateId, t: Token) {
    exists v :: j < v <= k && Repaired(h, v, c, t)
  }

  lemma {:induction false} Outstanding(h: History, steps: seq<Step>, j: nat, k: nat, p: Partition, c: CandidateId)
    requires Run(h, steps) && j < k < |h| && Recomputes(PartOf(h[j + 1], p), c)
    requires Fenced(h[j], p) && Revision(PartOf(h[j], p)) < Revision(PartOf(h[j + 1], p))
    ensures Recomputes(PartOf(h[k], p), c) || RepairedSince(h, j, k, c, p.token)
  {
    if j + 1 < k {
      Outstanding(h, steps, j, k - 1, p, c);
      if Recomputes(PartOf(h[k - 1], p), c) {
        StepStays(h, steps, k - 1, p, c);
        if !Recomputes(PartOf(h[k], p), c) { EvidenceIsNew(h, steps, j, k - 1, p, c); }
      }
    }
  }

  lemma ErasureStarts(h: History, steps: seq<Step>, j: nat, p: Partition, c: CandidateId)
    requires Run(h, steps) && j < |steps| && RowLeaves(h[j], h[j + 1], c, p)
    ensures Fenced(h[j], p) && Revision(PartOf(h[j], p)) < Revision(PartOf(h[j + 1], p)) && Recomputes(PartOf(h[j + 1], p), c)
  {
    RunApplies(h, steps, j);
    RunCoherent(h, steps, j);
    CoherentPrefix(h, j);
    LeavesByErasure(h[j], Protocol.Writes(h[..j + 1], j, steps[j]), c, p);
    OnlySweepsErase(h[..j + 1], j, steps[j], c, p);
    ErasureRecomputes(h[..j + 1], j, steps[j], p, c);
  }

  /** Whenever a contribution to a live candidate has gone, the traversal of its contributor's partition is at
      the recomputation of that candidate, or the candidate has been repaired since. */
  lemma EveryErasureRepaired(h: History, steps: seq<Step>, j: nat, k: nat, p: Partition, c: CandidateId)
    requires Run(h, steps) && j < k < |h| && RowLeaves(h[j], h[j + 1], c, p)
    ensures Recomputes(PartOf(h[k], p), c) || RepairedSince(h, j, k, c, p.token)
  {
    ErasureStarts(h, steps, j, p, c);
    Outstanding(h, steps, j, k, p, c);
  }

  ghost predicate RowLeft(h: History, j: nat, p: Partition, c: CandidateId) {
    j + 1 < |h| && RowLeaves(h[j], h[j + 1], c, p)
  }

  /** Every live candidate that has lost this contributor's row by this moment had been repaired since. */
  ghost predicate AllRepaired(h: History, k: nat, p: Partition) {
    forall j: nat, c :: j < k && RowLeft(h, j, p, c) ==> RepairedSince(h, j, k, c, p.token)
  }

  /** A traversal that looks for its next locator has left nothing to repair behind. */
  lemma SeekingMeansRepaired(h: History, steps: seq<Step>, k: nat, p: Partition)
    requires Run(h, steps) && k < |h| && CleanupOf(PartOf(h[k], p)).Some? && CleanupOf(PartOf(h[k], p)).value.Seek?
    ensures AllRepaired(h, k, p)
  {
    forall j: nat, c | j < k && RowLeft(h, j, p, c) ensures RepairedSince(h, j, k, c, p.token) {
      EveryErasureRepaired(h, steps, j, k, p, c);
    }
  }
}
