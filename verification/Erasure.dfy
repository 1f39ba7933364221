/** Erasure behind a tombstone is final. */
module Erasure {
  import opened Basics
  import opened Candidate
  import opened CandidateSteps
  import opened Table
  import opened Observations
  import opened Protocol
  import opened Fences
  import Traversal

  type History = Observations.History

  /** Nothing that the protocol wrote for the contributor's period is left: no contribution in any candidate, no event
      record, no locator. */
  ghost predicate Erased(s: State, p: Partition) {
    && PartOf(s, p).locators == map[]
    && (forall c :: c in s.cells && s.cells[c].period == p.period ==> p.token !in s.cells[c].rows)
    && (forall e :: e in s.events && s.events[e].owner == p ==> !s.events[e].feature && s.events[e].clustered.None?)
  }

  lemma NoLocatorsErased(s: State, p: Partition)
    requires Located(s) && EventsOwned(s) && PartOf(s, p).locators == map[]
    ensures Erased(s, p)
  {
    assert p == Partition(p.period, p.token);
  }

  lemma InvLocated(s: State)
    requires Table.Inv(s)
    ensures Located(s) && EventsOwned(s)
  {
  }

  lemma PartsEvolve(a: State, b: State, p: Partition)
    requires Table.Evolves(a, b)
    ensures PartEvolves(PartOf(a, p), PartOf(b, p))
  {
  }

  /** Once a partition has its tombstone, its locators only disappear. */
  lemma FencedLocatorsShrink(h: History, steps: seq<Step>, i: nat, j: nat, p: Partition)
    requires Run(h, steps) && i <= j < |h| && PartOf(h[i], p).tombstone.Some?
    ensures PartOf(h[j], p).tombstone.Some? && Shrinks(PartOf(h[i], p).locators, PartOf(h[j], p).locators)
  {
    RunEvolves(h, steps, i, j);
    PartsEvolve(h[i], h[j], p);
  }

  /** Non-resurrection: when the locators behind a tombstone are gone, every contribution and event
      record of that contributor and period is gone, then and in every later state. */
  lemma NoResurrection(h: History, steps: seq<Step>, i: nat, j: nat, p: Partition)
    requires Run(h, steps) && i <= j < |h| && PartOf(h[i], p).tombstone.Some? && PartOf(h[i], p).locators == map[]
    ensures Erased(h[j], p)
  {
    FencedLocatorsShrink(h, steps, i, j, p);
    RunInv(h, steps, j);
    InvLocated(h[j]);
    NoLocatorsErased(h[j], p);
  }

  /** When an owned locator goes, so does the row it names, and were it a stray. */
  lemma RowGoesWithLocator(s: State, x: Transaction, p: Partition, c: CandidateId)
    requires Known(s) && Sound(s, x) && CandidateKey(c) in PartOf(s, p).locators && CandidateKey(c) !in PartOf(Apply(s, x), p).locators
    ensures c in Apply(s, x).cells && p.token !in Apply(s, x).cells[c].rows && p.token !in Apply(s, x).cells[c].strays
  {
    PartAfter(s, x, p);
    assert KnownKey(s, p, CandidateKey(c));
  }

  /** The deadline of one contributor's row in a candidate, if the row is there. */
  function RowDeadline(s: State, c: CandidateId, p: Partition): Option<nat> {
    if c in s.cells && s.cells[c].period == p.period && p.token in s.cells[c].rows then Some(s.cells[c].rows[p.token].expiresAt) else None
  }

  predicate Fenced(s: State, p: Partition) { PartOf(s, p).tombstone.Some? }

  lemma FencedRowWasThere(s: State, x: Transaction, c: CandidateId, p: Partition)
    requires Sound(s, x) && Fenced(s, p) && RowDeadline(Apply(s, x), c, p).Some?
    ensures RowDeadline(s, c, p) == RowDeadline(Apply(s, x), c, p)
  {
    RowsAfter(s, x, c, p.token);
  }

  lemma FencedRowBefore(h: History, steps: seq<Step>, k: nat, c: CandidateId, p: Partition)
    requires Run(h, steps) && k < |steps| && Fenced(h[k], p) && RowDeadline(h[k + 1], c, p).Some?
    ensures RowDeadline(h[k], c, p) == RowDeadline(h[k + 1], c, p)
  {
    var x := RunEffect(h, steps, k);
    FencedRowWasThere(h[k], x, c, p);
  }

  lemma StillFenced(h: History, steps: seq<Step>, i: nat, j: nat, p: Partition)
    requires Run(h, steps) && i <= j < |h| && Fenced(h[i], p)
    ensures Fenced(h[j], p)
  {
    FencedLocatorsShrink(h, steps, i, j, p);
  }

  lemma {:induction false} FencedDeadlines(h: History, steps: seq<Step>, i: nat, j: nat, c: CandidateId, p: Partition)
    requires Run(h, steps) && i <= j < |h| && Fenced(h[i], p) && RowDeadline(h[j], c, p).Some?
    ensures RowDeadline(h[i], c, p) == RowDeadline(h[j], c, p)
  {
    if i < j {
      StillFenced(h, steps, i, j - 1, p);
      FencedRowBefore(h, steps, j - 1, c, p);
      FencedDeadlines(h, steps, i, j - 1, c, p);
    }
  }

  /** No contribution of a fenced contributor appears, whatever writers still run: one that is there
      was there when the tombstone was, with the same deadline. */
  lemma FencedRowsShrink(h: History, steps: seq<Step>, i: nat, j: nat, c: CandidateId, t: Token)
    requires Run(h, steps) && i <= j < |h| && c in h[j].cells && t in h[j].cells[c].rows
    requires PartOf(h[i], Partition(h[j].cells[c].period, t)).tombstone.Some?
    ensures c in h[i].cells && h[i].cells[c].period == h[j].cells[c].period && t in h[i].cells[c].rows
    ensures h[i].cells[c].rows[t].expiresAt == h[j].cells[c].rows[t].expiresAt
  {
    FencedDeadlines(h, steps, i, j, c, Partition(h[j].cells[c].period, t));
  }

  // ---------------------------------------------------------------- the traversal misses nothing

  predicate KeyAtMost(a: LocatorKey, b: LocatorKey) { a == b || KeyLess(a, b) }

  ghost predicate AllBeyond(l: map<LocatorKey, nat>, cursor: Option<LocatorKey>) {
    cursor.Some? ==> forall key :: key in l ==> KeyLess(cursor.value, key)
  }

  /** Everything the traversal has passed is gone. */
  ghost predicate SweptPart(part: Part) {
    part.tombstone.Some? && part.tombstone.value.cleanup.Some? ==>
      match part.tombstone.value.cleanup.value
      case Seek(_, cursor) => AllBeyond(part.locators, cursor)
      case Delete(_, cursor, locator, nextCursor) =>
        && AllBeyond(part.locators, cursor) && (nextCursor.None? || nextCursor.value == locator.key)
        && (locator.key in part.locators ==> part.locators[locator.key] == locator.expiresAt)
        && forall key :: key in part.locators ==> KeyAtMost(locator.key, key)
      case Recompute(_, cursor, locator, nextCursor) =>
        && AllBeyond(part.locators, cursor) && (nextCursor.None? || nextCursor.value == locator.key)
        && AllBeyond(part.locators, Some(locator.key))
  }

  function CleanupOf(part: Part): Option<Cleanup> {
    if part.tombstone.Some? then part.tombstone.value.cleanup else None
  }

  lemma SweptShrinks(a: Part, b: Part)
    requires SweptPart(a) && (CleanupOf(b).None? || (CleanupOf(a) == CleanupOf(b) && Shrinks(a.locators, b.locators)))
    ensures SweptPart(b)
  {
  }

  /** A transaction that leaves the partition's traversal where it is. */
  ghost predicate CleanupStays(s: State, x: Transaction, p: Partition) {
    x.fence.Some? && x.fence.value.0 == p ==>
      x.fence.value.1.cleanup.None? || x.fence.value.1.cleanup == CleanupOf(PartOf(s, p))
  }

  lemma SweptStays(s: State, x: Transaction, p: Partition)
    requires Sound(s, x) && SweptPart(PartOf(s, p)) && CleanupStays(s, x, p)
    ensures SweptPart(PartOf(Apply(s, x), p))
  {
    PartAfter(s, x, p);
    SweptShrinks(PartOf(s, p), PartOf(Apply(s, x), p));
  }

  predicate MovesTraversal(step: Step, p: Partition) {
    step.Traverse? && !step.traverse.EnsureFence? && !step.traverse.MovePeriods?
    && OwnPartition(step.traverse.worker, step.traverse.period) == p
  }

  lemma OthersLeaveTraversal(h: History, k: nat, step: Step, p: Partition)
    requires k < |h| && Protocol.Enabled(h, k, step) && !MovesTraversal(step, p)
    ensures CleanupStays(h[k], Protocol.Writes(h, k, step), p)
  {
  }

  /** What a traversal step relies on: the state it read is still the current one, and the locators
      it read can only have shrunk. */
  ghost predicate ReadsHold(h: History, k: nat, r: nat, q: nat, p: Partition) {
    && r <= q <= k < |h| && FenceSeen(h, r, p) && FenceSeen(h, k, p) && FenceSeen(h, q, p)
    && FenceAt(h, r, p).cleanup == FenceAt(h, q, p).cleanup == FenceAt(h, k, p).cleanup
    && Shrinks(PartOf(h[q], p).locators, PartOf(h[k], p).locators)
  }

  lemma ReadsStillHold(h: History, k: nat, r: nat, q: nat, p: Partition)
    requires Coherent(h, k) && r <= q <= k && Traversal.CleanupUnmoved(h, k, r, p)
    ensures ReadsHold(h, k, r, q, p)
  {
    assert Later(h, r, q) && Later(h, q, k);
    PartsEvolve(h[r], h[q], p);
    PartsEvolve(h[q], h[k], p);
  }

  lemma MoveSwept(h: History, k: nat, r: nat, q: nat, p: Partition, op: Operation, next: Cleanup, after: Part)
    requires ReadsHold(h, k, r, q, p) && Traversal.CleanupMove(h, k, r, q, p, op, next)
    requires SweptPart(PartOf(h[k], p)) && CleanupOf(after) == Some(next) && after.locators == PartOf(h[k], p).locators
    ensures SweptPart(after)
  {
  }

  lemma EraseSwept(before: Part, after: Part, op: Operation)
    requires SweptPart(before) && CleanupOf(before).Some? && CleanupOf(before).value.Delete?
    requires var cleanup := CleanupOf(before).value;
             && after.locators == before.locators - {cleanup.locator.key}
             && (CleanupOf(after) == Some(Recompute(op, cleanup.cursor, cleanup.locator, cleanup.nextCursor))
                 || CleanupOf(after) == Some(Seek(op, cleanup.nextCursor)))
    ensures SweptPart(after)
  {
  }

  lemma EraseWritesSwept(h: History, k: nat, step: Traversal.TraversalStep, p: Partition)
    requires k < |h| && Traversal.Guarded(h, k, step) && (step.EraseContribution? || step.EraseFeature?)
    requires p == OwnPartition(step.worker, step.period) && FenceAt(h, k, p).cleanup == FenceAt(h, step.r, p).cleanup
    requires Sound(h[k], Traversal.Writes(h, k, step)) && SweptPart(PartOf(h[k], p))
    ensures SweptPart(PartOf(Apply(h[k], Traversal.Writes(h, k, step)), p))
  {
    var x := Traversal.Writes(h, k, step);
    PartAfter(h[k], x, p);
    EraseSwept(PartOf(h[k], p), PartOf(Apply(h[k], x), p), step.worker.operation);
  }

  lemma MoveWritesSwept(h: History, k: nat, step: Traversal.TraversalStep, p: Partition)
    requires k < |h| && Traversal.Guarded(h, k, step) && step.MoveCleanup?
    requires p == OwnPartition(step.worker, step.period) && ReadsHold(h, k, step.r, step.q, p)
    requires Sound(h[k], Traversal.Writes(h, k, step)) && SweptPart(PartOf(h[k], p))
    ensures SweptPart(PartOf(Apply(h[k], Traversal.Writes(h, k, step)), p))
  {
    var x := Traversal.Writes(h, k, step);
    PartAfter(h[k], x, p);
    MoveSwept(h, k, step.r, step.q, p, step.worker.operation, step.next, PartOf(Apply(h[k], x), p));
  }

  lemma TraversalSwept(h: History, k: nat, step: Traversal.TraversalStep, p: Partition)
    requires Coherent(h, k) && Traversal.Guarded(h, k, step) && !step.EnsureFence? && !step.MovePeriods?
    requires p == OwnPartition(step.worker, step.period)
    requires Sound(h[k], Traversal.Writes(h, k, step)) && SweptPart(PartOf(h[k], p))
    ensures SweptPart(PartOf(Apply(h[k], Traversal.Writes(h, k, step)), p))
  {
    ReadsStillHold(h, k, step.r, step.q, p);
    if step.MoveCleanup? {
      MoveWritesSwept(h, k, step, p);
    } else {
      EraseWritesSwept(h, k, step, p);
    }
  }

  lemma StepSwept(h: History, steps: seq<Step>, k: nat, p: Partition)
    requires Run(h, steps) && k < |steps| && SweptPart(PartOf(h[k], p))
    ensures SweptPart(PartOf(h[k + 1], p))
  {
    RunApplies(h, steps, k);
    if MovesTraversal(steps[k], p) {
      RunCoherent(h, steps, k);
      CoherentPrefix(h, k);
      TraversalSwept(h[..k + 1], k, steps[k].traverse, p);
    } else {
      OthersLeaveTraversal(h[..k + 1], k, steps[k], p);
      SweptStays(h[k], Protocol.Writes(h[..k + 1], k, steps[k]), p);
    }
  }

  /** In every reachable state the traversal of a partition has passed only locators that are gone. */
  lemma {:induction false} RunSwept(h: History, steps: seq<Step>, k: nat, p: Partition)
    requires Run(h, steps) && k < |h|
    ensures SweptPart(PartOf(h[k], p))
  {
    if k > 0 {
      RunSwept(h, steps, k - 1, p);
      StepSwept(h, steps, k - 1, p);
    }
  }

  /** The step with which a traversal restarts because it found no locator behind its cursor. */
  predicate EndsPass(h: History, steps: seq<Step>, k: nat, r: nat, q: nat, p: Partition) {
    && k < |steps| && steps[k].Traverse? && steps[k].traverse.MoveCleanup?
    && steps[k].traverse.r == r && steps[k].traverse.q == q
    && var w := steps[k].traverse.worker;
    && p == OwnPartition(w, steps[k].traverse.period)
    && FenceSeen(h, r, p) && FenceAt(h, r, p).cleanup.Some?
    && FenceAt(h, r, p).cleanup.value.Seek? && FenceAt(h, r, p).cleanup.value.operation == w.operation
    && steps[k].traverse.next == Seek(w.operation, None)
  }

  lemma EndSeen(h: History, steps: seq<Step>, k: nat, r: nat, q: nat, p: Partition)
    requires Run(h, steps) && EndsPass(h, steps, k, r, q, p)
    ensures ReadsHold(h, k, r, q, p)
    ensures Traversal.NoLocatorAfter(PartOf(h[q], p).locators, FenceAt(h, r, p).cleanup.value.cursor)
  {
    RunCoherent(h, steps, k);
    CoherentPrefix(h, k);
    assert StepAt(h, steps, k);
    ReadsStillHold(h[..k + 1], k, r, q, p);
  }

  lemma SweptAndNothingAfter(part: Part, op: Operation, cursor: Option<LocatorKey>)
    requires SweptPart(part) && CleanupOf(part) == Some(Seek(op, cursor)) && Traversal.NoLocatorAfter(part.locators, cursor)
    ensures part.locators == map[]
  {
    assert forall key :: key !in part.locators;
  }

  /** When the traversal finds no locator behind its cursor, the partition held none at all: the
      restart that looks for locators inserted behind the cursor never finds one. From then on
      nothing the protocol wrote for the contributor's period exists. */
  lemma PassEndIsFinal(h: History, steps: seq<Step>, k: nat, r: nat, q: nat, p: Partition, j: nat)
    requires Run(h, steps) && EndsPass(h, steps, k, r, q, p) && q <= j < |h|
    ensures q <= k && PartOf(h[q], p).locators == map[] && Erased(h[j], p)
  {
    EndSeen(h, steps, k, r, q, p);
    RunSwept(h, steps, q, p);
    var cleanup := FenceAt(h, r, p).cleanup.value;
    SweptAndNothingAfter(PartOf(h[q], p), cleanup.operation, cleanup.cursor);
    NoResurrection(h, steps, q, j, p);
  }
}
