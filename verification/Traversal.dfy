/** The deletion worker's traversal of one contributor's locators and its retained periods. */
module Traversal {
  import opened Basics
  import opened Candidate
  import opened CandidateSteps
  import opened Table
  import opened Observations
  import opened Fences

  datatype TraversalStep =
    | EnsureFence(worker: Worker, period: nat, days: nat)
    | MoveCleanup(worker: Worker, period: nat, r: nat, q: nat, next: Cleanup)
    | MovePeriods(worker: Worker, period: nat, r: nat, minimum: nat)
    | EraseContribution(worker: Worker, period: nat, r: nat, q: nat, u: nat)
    | EraseFeature(worker: Worker, period: nat, r: nat, q: nat)

  /** The compare-and-set on the traversal revision. */
  predicate CleanupUnmoved(h: History, k: nat, r: nat, p: Partition)
    requires k < |h|
  {
    && r <= k && FenceSeen(h, r, p) && FenceSeen(h, k, p)
    && FenceAt(h, k, p).deadline == FenceAt(h, r, p).deadline
    && FenceAt(h, k, p).cleanupRevision == FenceAt(h, r, p).cleanupRevision
  }

  function Moved(tomb: Tombstone, next: Cleanup): Tombstone {
    tomb.(cleanupRevision := tomb.cleanupRevision + 1, cleanup := Some(next))
  }

  /** The first owned locator behind a cursor, and the continuation of a one-row page. */
  ghost predicate FirstLocator(l: map<LocatorKey, nat>, cursor: Option<LocatorKey>, found: Locator, next: Option<LocatorKey>) {
    && found.key in l && l[found.key] == found.expiresAt
    && (cursor.Some? ==> KeyLess(cursor.value, found.key))
    && (forall key :: key in l && (cursor.Some? ==> KeyLess(cursor.value, key)) ==> key == found.key || KeyLess(found.key, key))
    && (next == Some(found.key)
        || (next.None? && forall key :: key in l && (cursor.Some? ==> KeyLess(cursor.value, key)) ==> key == found.key))
  }

  ghost predicate NoLocatorAfter(l: map<LocatorKey, nat>, cursor: Option<LocatorKey>) {
    forall key :: key in l ==> cursor.Some? && !KeyLess(cursor.value, key)
  }

  /** The traversal moves that are not erasures. `q` is when the move's own evidence was read. */
  ghost predicate CleanupMove(h: History, k: nat, r: nat, q: nat, p: Partition, op: Operation, next: Cleanup)
    requires k < |h| && r <= q <= k && FenceSeen(h, r, p)
  {
    match FenceAt(h, r, p).cleanup
    case None => next == Seek(op, None)
    case Some(c) =>
      if c.operation != op then next == c.(operation := op)
      else match c
        case Seek(_, cursor) =>
          || (next.Delete? && next.operation == op && next.cursor == cursor
              && FirstLocator(PartOf(h[q], p).locators, cursor, next.locator, next.nextCursor))
          || (next == Seek(op, None) && NoLocatorAfter(PartOf(h[q], p).locators, cursor))
        case Delete(_, _, _, _) => false
        case Recompute(_, _, _, nextCursor) => next == Seek(op, nextCursor)
  }

  /** An operation leaves its recomputation of a candidate only for a moment `q`, since it read the traversal
      state, at which no repair of that candidate was outstanding. */
  ghost predicate Earned(h: History, r: nat, q: nat, p: Partition, op: Operation)
    requires FenceSeen(h, r, p)
  {
    match FenceAt(h, r, p).cleanup
    case Some(Recompute(of, _, locator, _)) => of == op && locator.key.CandidateKey? ==> RepairedAt(h, q, locator.key.candidate)
    case _ => true
  }

  /** The erasure of one contribution: `r` read the tombstone, `q` the locator, `u` the summary. */
  ghost predicate EraseLegal(h: History, k: nat, w: Worker, period: nat, r: nat, q: nat, u: nat)
    requires k < |h|
  {
    var p := OwnPartition(w, period);
    && r <= q <= u <= k && CommandLive(h[k], w) && CleanupUnmoved(h, k, r, p)
    && FenceAt(h, r, p).cleanup.Some? && FenceAt(h, r, p).cleanup.value.Delete?
    && FenceAt(h, r, p).cleanup.value.operation == w.operation
    && FenceAt(h, r, p).cleanup.value.locator.key.CandidateKey?
    && var loc := FenceAt(h, r, p).cleanup.value.locator;
    && var c := loc.key.candidate;
    && c in h[u].cells && c in h[k].cells
    && (if loc.key in PartOf(h[q], p).locators
        then PartOf(h[q], p).locators[loc.key] == loc.expiresAt && PairOwned(h[k], c, w.account, loc.expiresAt)
             && h[k].cells[c].period == period
        else loc.key !in PartOf(h[k], p).locators && w.account !in h[k].cells[c].rows && w.account !in h[k].cells[c].strays)
    && (SeesSummary(h, u, c) ==>
         var seen := SummaryAt(h, u, c);
         if seen.phase.Open? then OpenAtVersion(h[k], c, seen.version)
         else SummaryIs(h[k], c, seen)
              && (seen.phase.Published? <==> h[k].cells[c].aggregate.Some?))
  }

  ghost function EraseChange(h: History, u: nat, c: CandidateId, t: Token): Change {
    if !SeesSummary(h, u, c) then EraseOrphan(t)
    else if SummaryAt(h, u, c).phase.Final() then EraseFinal(t)
    else EraseLive(SummaryAt(h, u, c), t)
  }


  // ---------------------------------------------------------------- retained periods

  /** A stored rotation is usable only for exactly the same retained range. */
  predicate RotationFits(stored: Option<PeriodCursor>, minimum: nat, maximum: nat) {
    && minimum <= maximum
    && (stored.Some? ==> stored.value.minimum == minimum && stored.value.maximum == maximum
                         && minimum <= stored.value.next <= maximum)
  }

  /** The period the next attempt is made on. */
  function SelectedPeriod(stored: Option<PeriodCursor>, minimum: nat): nat {
    match stored
    case None => minimum
    case Some(cursor) => cursor.next
  }

  /** The rotation is advanced before the attempt, whose outcome it does not wait for. */
  function Rotated(tomb: Tombstone, op: Operation, minimum: nat, maximum: nat): Tombstone {
    var selected := SelectedPeriod(tomb.periods, minimum);
    tomb.(periodRevision := tomb.periodRevision + 1,
          periods := Some(PeriodCursor(op, minimum, maximum, if selected == maximum then minimum else selected + 1)))
  }

  /** The guard of a step, evaluated against its reads and the state it commits to. */
  ghost predicate Guarded(h: History, k: nat, step: TraversalStep)
    requires k < |h|
  {
    var s := h[k];
    match step
    case EnsureFence(w, period, days) =>
      CommandLive(s, w) && 1 <= days <= 21 && PartOf(s, OwnPartition(w, period)).tombstone.None?
    case MoveCleanup(w, period, r, q, next) =>
      && r <= q <= k && CommandLive(s, w) && CleanupUnmoved(h, k, r, OwnPartition(w, period))
      && CleanupMove(h, k, r, q, OwnPartition(w, period), w.operation, next)
    case MovePeriods(w, period, r, minimum) =>
      && r <= k && CommandLive(s, w) && FenceSeen(h, r, OwnPartition(w, period))
      && RotationFits(FenceAt(h, r, OwnPartition(w, period)).periods, minimum, period)
      && PartOf(s, OwnPartition(w, period)).tombstone == PartOf(h[r], OwnPartition(w, period)).tombstone
    case EraseContribution(w, period, r, q, u) => EraseLegal(h, k, w, period, r, q, u)
    case EraseFeature(w, period, r, q) =>
      var p := OwnPartition(w, period);
      && r <= q <= k && CommandLive(s, w) && CleanupUnmoved(h, k, r, p)
      && FenceAt(h, r, p).cleanup.Some? && FenceAt(h, r, p).cleanup.value.Delete?
      && FenceAt(h, r, p).cleanup.value.operation == w.operation
      && FenceAt(h, r, p).cleanup.value.locator.key.EventKey?
      && var loc := FenceAt(h, r, p).cleanup.value.locator;
      && loc.key.event in s.events
      && (if loc.key in PartOf(h[q], p).locators
          then PartOf(h[q], p).locators[loc.key] == loc.expiresAt
               && loc.key in PartOf(s, p).locators && PartOf(s, p).locators[loc.key] == loc.expiresAt
          else loc.key !in PartOf(s, p).locators && s.events[loc.key.event] == WithoutRecords(s.events[loc.key.event]))
  }

  /** A step is taken under its guard; one that leaves a recomputation, after that is done. */
  ghost predicate Enabled(h: History, k: nat, step: TraversalStep)
    requires k < |h|
  {
    && Guarded(h, k, step)
    && (step.MoveCleanup? ==> Earned(h, step.r, step.q, OwnPartition(step.worker, step.period), step.worker.operation))
  }

  /** The writes of a step. */
  ghost function Writes(h: History, k: nat, step: TraversalStep): Transaction
    requires k < |h| && Guarded(h, k, step)
  {
    var s := h[k];
    match step
    case EnsureFence(w, period, days) =>
      var at := LedgerOf(s, w.account).commands[w.operation].occurredAt;
      NO_WRITES.(fence := Some((OwnPartition(w, period), Tombstone(at, at + days * 86400, 0, None, 0, None))))
    case MoveCleanup(w, period, r, q, next) =>
      var p := OwnPartition(w, period);
      NO_WRITES.(fence := Some((p, Moved(FenceAt(h, k, p), next))))
    case MovePeriods(w, period, r, minimum) =>
      var p := OwnPartition(w, period);
      NO_WRITES.(fence := Some((p, Rotated(FenceAt(h, r, p), w.operation, minimum, period))))
    case EraseContribution(w, period, r, q, u) =>
      var p := OwnPartition(w, period);
      var cleanup := FenceAt(h, r, p).cleanup.value;
      var c := cleanup.locator.key.candidate;
      NO_WRITES.(cell := Modify(c, EraseChange(h, u, c, w.account)),
                 locator := if cleanup.locator.key in PartOf(h[q], p).locators then DropLocator(p, cleanup.locator.key) else NoLocator,
                 fence := Some((p, Moved(FenceAt(h, k, p), Recompute(w.operation, cleanup.cursor, cleanup.locator, cleanup.nextCursor)))))
    case EraseFeature(w, period, r, q) =>
      var p := OwnPartition(w, period);
      var cleanup := FenceAt(h, r, p).cleanup.value;
      var e := cleanup.locator.key.event;
      NO_WRITES.(event := Some((e, WithoutRecords(s.events[e]))),
                 locator := if cleanup.locator.key in PartOf(h[q], p).locators then DropLocator(p, cleanup.locator.key) else NoLocator,
                 fence := Some((p, Moved(FenceAt(h, k, p), Seek(w.operation, cleanup.nextCursor)))))
  }

  lemma CleanupStillSeen(h: History, k: nat, r: nat, p: Partition)
    requires Coherent(h, k) && CleanupUnmoved(h, k, r, p)
    ensures FenceAt(h, k, p).cleanup == FenceAt(h, r, p).cleanup
  {
    assert Later(h, r, k);
    assert PartEvolves(PartOf(h[r], p), PartOf(h[k], p));
  }

  lemma MoveSound(h: History, k: nat, step: TraversalStep)
    requires Coherent(h, k) && Guarded(h, k, step) && step.MoveCleanup?
    ensures Sound(h[k], Writes(h, k, step))
  {
    var p := OwnPartition(step.worker, step.period);
    CleanupStillSeen(h, k, step.r, p);
    assert SoundAt(h, k);
    if step.next.Delete? && FenceAt(h, step.r, p).cleanup.Some? && FenceAt(h, step.r, p).cleanup.value.Seek? {
      assert SoundAt(h, step.q) && KnownKey(h[step.q], p, step.next.locator.key);
      assert Later(h, step.q, k);
    }
  }

  lemma EraseAdmissible(h: History, k: nat, w: Worker, period: nat, r: nat, q: nat, u: nat)
    requires Coherent(h, k) && EraseLegal(h, k, w, period, r, q, u)
    ensures var c := FenceAt(h, r, OwnPartition(w, period)).cleanup.value.locator.key.candidate;
            Admissible(h[k].cells[c], EraseChange(h, u, c, w.account))
  {
    var c := FenceAt(h, r, OwnPartition(w, period)).cleanup.value.locator.key.candidate;
    assert Later(h, u, k);
    assert CandidateSteps.Evolves(h[u].cells[c], h[k].cells[c]);
  }

  lemma EraseContributionSound(h: History, k: nat, w: Worker, period: nat, r: nat, q: nat, u: nat)
    requires k < |h| && EraseLegal(h, k, w, period, r, q, u) && Table.Known(h[k])
    requires var p := OwnPartition(w, period);
             && FenceAt(h, k, p).cleanup == FenceAt(h, r, p).cleanup
             && var c := FenceAt(h, r, p).cleanup.value.locator.key.candidate;
             Admissible(h[k].cells[c], EraseChange(h, u, c, w.account))
    ensures Sound(h[k], Writes(h, k, EraseContribution(w, period, r, q, u)))
  {
  }

  lemma EraseFeatureSound(h: History, k: nat, step: TraversalStep)
    requires Coherent(h, k) && Guarded(h, k, step) && step.EraseFeature?
    ensures Sound(h[k], Writes(h, k, step))
  {
    CleanupStillSeen(h, k, step.r, OwnPartition(step.worker, step.period));
    assert SoundAt(h, k);
  }

  lemma StepSound(h: History, k: nat, step: TraversalStep)
    requires Coherent(h, k) && Guarded(h, k, step)
    ensures Sound(h[k], Writes(h, k, step))
  {
    match step
    case EnsureFence(w, period, days) =>
    case MoveCleanup(w, period, r, q, next) => MoveSound(h, k, step);
    case MovePeriods(w, period, r, minimum) => assert SoundAt(h, k);
    case EraseContribution(w, period, r, q, u) =>
      CleanupStillSeen(h, k, r, OwnPartition(w, period));
      EraseAdmissible(h, k, w, period, r, q, u);
      assert SoundAt(h, k);
      EraseContributionSound(h, k, w, period, r, q, u);
    case EraseFeature(w, period, r, q) => EraseFeatureSound(h, k, step);
  }
}
