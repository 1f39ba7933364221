/** The sweep as time passes: rows expire, so recomputations stop finding them, and every sweep reaches the
    end of its pass. What is left of the failing case is exactly a row that outlives every clock reading. */
module SweepClock {
  import opened Basics
  import opened Candidate
  import opened CandidateSteps
  import opened Table
  import opened Observations
  import opened Fences
  import opened Erasure
  import opened SweepWorker
  import opened Paging
  import opened RankedRuns
  import opened SweepTermination
  import Snapshot

  type Step = SweepTermination.Step

  // ---------------------------------------------------------------- what a sweep may still have to recompute

  predicate Names(cleanup: Option<Cleanup>, c: CandidateId) {
    cleanup.Some? && !cleanup.value.Seek? && cleanup.value.locator.key == CandidateKey(c)
  }

  /** The traversal still has this candidate before it, or is at it. */
  predicate Linked(s: State, p: Partition, c: CandidateId) {
    CandidateKey(c) in PartOf(s, p).locators || Names(CleanupAt(s, p), c)
  }

  predicate OpenCell(c: Cell) { c.summary.Some? && c.summary.value.phase.Open? }

  predicate Exposed(s: State, p: Partition, c: CandidateId) { c in s.cells && OpenCell(s.cells[c]) && Linked(s, p, c) }

  /** Every contribution of others expires at `t` or before. */
  ghost predicate ExpiredBy(c: Cell, token: Token, t: nat) {
    forall u :: u in c.rows && u != token ==> c.rows[u].expiresAt <= t
  }

  /** No recomputation that the sweep may still make finds a contribution after `t`. */
  ghost predicate Past(s: State, p: Partition, t: nat) {
    forall c :: Exposed(s, p, c) ==> ExpiredBy(s.cells[c], p.token, t)
  }

  // ---------------------------------------------------------------- how a commit changes that

  /** What every transaction of a sweeper has in common. */
  ghost predicate Sweeping(s: State, x: Transaction, p: Partition) {
    && (x.locator.NoLocator? || x.locator.DropLocator?) && !x.cell.Create?
    && (x.cell.Modify? ==> !x.cell.change.Match? && !x.cell.change.Repeat? && !x.cell.change.Appear?)
    && (x.fence.Some? ==> x.fence.value.0 == p && forall c :: Names(x.fence.value.1.cleanup, c) ==> Linked(s, p, c))
  }

  lemma MovesSweeping(s: State, w: Worker, period: nat, finished: bool, reading: nat, step: Step)
    requires SweepCommits(s, w, period, finished, reading, step) && Moves(step, w, period)
    ensures Sweeping(s, WritesOf(s, step), OwnPartition(w, period))
  {
  }

  lemma ErasesSweeping(s: State, w: Worker, period: nat, finished: bool, reading: nat, step: Step)
    requires SweepCommits(s, w, period, finished, reading, step) && Erases(step, w, period)
    ensures Sweeping(s, WritesOf(s, step), OwnPartition(w, period))
  {
  }

  lemma CommitsSweeping(s: State, w: Worker, period: nat, finished: bool, reading: nat, step: Step)
    requires SweepCommits(s, w, period, finished, reading, step)
    ensures Sweeping(s, WritesOf(s, step), OwnPartition(w, period))
  {
    if Moves(step, w, period) {
      MovesSweeping(s, w, period, finished, reading, step);
    } else if Erases(step, w, period) {
      ErasesSweeping(s, w, period, finished, reading, step);
    } else {
      RepairWrites(s, w, CleanupAt(s, OwnPartition(w, period)).value.locator.key.candidate, reading, step);
    }
  }

  lemma RowsLeave(c: Cell, ch: Change)
    requires Admissible(c, ch) && !ch.Match? && !ch.Repeat?
    ensures Shrinks(c.rows, Next(c, ch).rows) && (OpenCell(Next(c, ch)) ==> OpenCell(c))
    ensures Next(c, ch).checkpoint.Some? && !ch.Restart? ==> c.checkpoint.Some? && Next(c, ch).checkpoint.value.cutoff == c.checkpoint.value.cutoff
  {
  }

  /** Nothing becomes exposed, and no row appears. */
  lemma ExposesLess(s: State, x: Transaction, p: Partition, c: CandidateId)
    requires Sound(s, x) && Sweeping(s, x, p) && Exposed(Apply(s, x), p, c)
    ensures Exposed(s, p, c) && Shrinks(s.cells[c].rows, Apply(s, x).cells[c].rows)
  {
    PartAfter(s, x, p);
    if x.cell.Modify? && x.cell.candidate == c { RowsLeave(s.cells[c], x.cell.change); }
  }

  lemma PastKept(s: State, x: Transaction, p: Partition, t: nat)
    requires Sound(s, x) && Sweeping(s, x, p) && Past(s, p, t)
    ensures Past(Apply(s, x), p, t)
  {
    forall c | Exposed(Apply(s, x), p, c) ensures ExpiredBy(Apply(s, x).cells[c], p.token, t) { ExposesLess(s, x, p, c); }
  }

  // ---------------------------------------------------------------- recomputations begun too early

  /** The candidates with a recomputation whose cutoff lies before `t`. */
  function Old(s: State, t: nat): set<CandidateId> {
    set c | c in s.cells && s.cells[c].checkpoint.Some? && s.cells[c].checkpoint.value.cutoff < t
  }

  lemma OldKept(s: State, x: Transaction, p: Partition, t: nat)
    requires Sound(s, x) && Sweeping(s, x, p) && (x.cell.Modify? && x.cell.change.Restart? ==> x.cell.change.cutoff >= t)
    ensures Old(Apply(s, x), t) <= Old(s, t)
  {
    forall c | c in Old(Apply(s, x), t) ensures c in Old(s, t) {
      if x.cell.Modify? && x.cell.candidate == c { RowsLeave(s.cells[c], x.cell.change); }
    }
  }

  /** The contributor's own row is gone when its candidate is recomputed. */
  lemma OwnRowGone(s: State, p: Partition, c: CandidateId)
    requires Table.Inv(s) && SweptPart(PartOf(s, p)) && CleanupAt(s, p).Some? && CleanupAt(s, p).value.Recompute?
    requires CleanupAt(s, p).value.locator.key == CandidateKey(c) && c in s.cells
    ensures s.cells[c].period == p.period && p.token !in s.cells[c].rows
  {
    OwnRowKnown(s, p, c);
    OwnRowLocated(s, p, c);
  }

  lemma OwnRowKnown(s: State, p: Partition, c: CandidateId)
    requires Known(s) && p in s.parts && s.parts[p].tombstone.Some? && s.parts[p].tombstone.value.cleanup.Some?
    requires Names(s.parts[p].tombstone.value.cleanup, c)
    ensures c in s.cells && s.cells[c].period == p.period
  {
    assert KnownCleanup(s, p, s.parts[p].tombstone.value.cleanup.value);
  }

  lemma OwnRowLocated(s: State, p: Partition, c: CandidateId)
    requires Located(s) && c in s.cells && s.cells[c].period == p.period && CandidateKey(c) !in PartOf(s, p).locators
    ensures p.token !in s.cells[c].rows
  {
    assert p == Partition(s.cells[c].period, p.token);
  }

  lemma FoundNobody(cell: Cell, seen: Summary, saved: Checkpoint, page: seq<Token>, totals: Partial, token: Token, t: nat)
    requires CandidateSteps.Inv(cell) && Admissible(cell, Finish(seen, saved, page, totals))
    requires ExpiredBy(cell, token, t) && token !in cell.rows && saved.cutoff >= t
    ensures Next(cell, Finish(seen, saved, page, totals)).summary.None?
  {
    Snapshot.FinishSnapshot(cell, seen, saved, page, totals);
    assert Unexpired(cell.rows, saved.cutoff) == {};
  }

  /** A recomputation whose cutoff is at or past every deadline in its candidate removes the summary: a
      crash right after it is no setback. */
  lemma LateFinish(s: State, w: Worker, period: nat, c: CandidateId, reading: nat, step: Step, t: nat)
    requires Table.Inv(s) && SweptPart(PartOf(s, OwnPartition(w, period))) && Past(s, OwnPartition(w, period), t)
    requires Can(s, step) && Repairs(s, step, w, c, reading) && Remembers(step)
    requires CleanupAt(s, OwnPartition(w, period)).Some? && CleanupAt(s, OwnPartition(w, period)).value.Recompute?
    requires CleanupAt(s, OwnPartition(w, period)).value.locator.key == CandidateKey(c)
    requires Sound(s, WritesOf(s, step))
    ensures var n := Apply(s, WritesOf(s, step));
            c in n.cells && (OpenCell(n.cells[c]) ==> c in Old(s, t) && c !in Old(n, t))
  {
    var ch := WritesOf(s, step).cell.change;
    RepairWrites(s, w, c, reading, step);
    if OpenCell(s.cells[c]) && ch.saved.cutoff >= t {
      OwnRowGone(s, OwnPartition(w, period), c);
      assert Exposed(s, OwnPartition(w, period), c) && CandidateSteps.Inv(s.cells[c]);
      FoundNobody(s.cells[c], ch.seen, ch.saved, ch.page, ch.totals, w.account, t);
    }
  }

  // ---------------------------------------------------------------- calls that begin late enough

  /** The call in progress, or the next one, reads the clock at `t` or later. */
  predicate Late(a: Sweeper, t: nat) {
    match a.call case Some(call) => call.reading >= t case None => a.table.clock >= t
  }

  /** What is left to do, and the recomputations that may still be in vain. */
  function LateWeight(a: Sweeper, w: Worker, period: nat, most: nat, t: nat): nat {
    WeightOf(a, w, period, most) + |Old(a.table, t)| * (2 * (most + 1))
  }

  lemma PastLater(s: State, time: nat, p: Partition, t: nat)
    ensures Past(At(s, time), p, t) == Past(s, p, t) && Old(At(s, time), t) == Old(s, t)
  {
    assert forall c :: Exposed(At(s, time), p, c) == Exposed(s, p, c);
  }

  lemma TakesPast(a: Sweeper, turn: Turn, b: Sweeper, w: Worker, period: nat, t: nat)
    requires Takes(a, turn, b, w, period) && Past(a.table, OwnPartition(w, period), t)
    requires Sound(At(a.table, turn.time), WritesOf(At(a.table, turn.time), turn.step))
    ensures Past(b.table, OwnPartition(w, period), t)
  {
    var s := At(a.table, turn.time);
    PastLater(a.table, turn.time, OwnPartition(w, period), t);
    CommitsSweeping(s, w, period, Finished(a), turn.reading, turn.step);
    PastKept(s, WritesOf(s, turn.step), OwnPartition(w, period), t);
  }

  /** Recomputations are begun with the call's reading only. */
  lemma RestartReads(s: State, w: Worker, period: nat, finished: bool, reading: nat, step: Step)
    requires SweepCommits(s, w, period, finished, reading, step)
    ensures var x := WritesOf(s, step); x.cell.Modify? && x.cell.change.Restart? ==> x.cell.change.cutoff == reading
  {
  }

  lemma TakesOld(a: Sweeper, turn: Turn, b: Sweeper, w: Worker, period: nat, t: nat)
    requires Takes(a, turn, b, w, period) && turn.reading >= t
    requires Sound(At(a.table, turn.time), WritesOf(At(a.table, turn.time), turn.step))
    ensures Old(b.table, t) <= Old(a.table, t)
  {
    var s := At(a.table, turn.time);
    PastLater(a.table, turn.time, OwnPartition(w, period), t);
    CommitsSweeping(s, w, period, Finished(a), turn.reading, turn.step);
    RestartReads(s, w, period, Finished(a), turn.reading, turn.step);
    OldKept(s, WritesOf(s, turn.step), OwnPartition(w, period), t);
  }

  lemma FinishIsRepair(s: State, w: Worker, period: nat, finished: bool, reading: nat, step: Step)
    requires SweepCommits(s, w, period, finished, reading, step) && Remembers(step)
    ensures Repairs(s, step, w, step.mend.candidate, reading)
    ensures CleanupAt(s, OwnPartition(w, period)).Some? && CleanupAt(s, OwnPartition(w, period)).value.Recompute?
    ensures CleanupAt(s, OwnPartition(w, period)).value.locator.key == CandidateKey(step.mend.candidate)
  {
  }

  lemma FinishUsesUp(s: State, w: Worker, period: nat, finished: bool, reading: nat, step: Step, t: nat)
    requires Ready(s, w, period) && Past(s, OwnPartition(w, period), t)
    requires SweepCommits(s, w, period, finished, reading, step) && Remembers(step) && Sound(s, WritesOf(s, step))
    ensures var n := Apply(s, WritesOf(s, step));
            step.mend.candidate in n.cells
            && (OpenCell(n.cells[step.mend.candidate]) ==> step.mend.candidate in Old(s, t) && step.mend.candidate !in Old(n, t))
  {
    FinishIsRepair(s, w, period, finished, reading, step);
    LateFinish(s, w, period, step.mend.candidate, reading, step, t);
  }

  /** A setback of a late call uses up a recomputation begun too early. */
  lemma SetbackUsesUp(a: Sweeper, turn: Turn, b: Sweeper, w: Worker, period: nat, most: nat, t: nat)
    requires Ready(a.table, w, period) && RowsWithin(a.table, most) && Timed(a) && Takes(a, turn, b, w, period) && Setback(turn, b)
    requires Past(a.table, OwnPartition(w, period), t)
    ensures turn.step.mend.candidate in Old(a.table, t) && turn.step.mend.candidate !in Old(b.table, t)
  {
    var s := At(a.table, turn.time);
    TakeKeeps(a, turn, b, w, period, most);
    PastLater(a.table, turn.time, OwnPartition(w, period), t);
    FinishUsesUp(s, w, period, Finished(a), turn.reading, turn.step, t);
  }

  lemma OldCount(before: set<CandidateId>, after: set<CandidateId>, used: bool, c: CandidateId, penalty: nat)
    requires after <= before && (used ==> c in before && c !in after)
    ensures |after| * penalty + (if used then penalty else 0) <= |before| * penalty
  {
    if used {
      SmallerSet(after, before, c);
      Scaled(|after| + 1, |before|, penalty);
      Scaled(|after|, |after|, penalty);
    } else {
      SubsetSize(after, before);
      Scaled(|after|, |before|, penalty);
    }
  }

  ghost function LateFit(w: Worker, period: nat, most: nat, t: nat): Sweeper -> bool {
    (a: Sweeper) => Ready(a.table, w, period) && RowsWithin(a.table, most) && Timed(a) && Past(a.table, OwnPartition(w, period), t) && Late(a, t)
  }

  ghost function LateWeighing(w: Worker, period: nat, most: nat, t: nat): Sweeper -> nat {
    (a: Sweeper) => LateWeight(a, w, period, most, t)
  }

  const NEVER := (turn: Turn, b: Sweeper) => false

  lemma LateTurnCosts(a: Sweeper, turn: Turn, b: Sweeper, w: Worker, period: nat, most: nat, t: nat)
    requires LateFit(w, period, most, t)(a) && Takes(a, turn, b, w, period)
    ensures LateFit(w, period, most, t)(b)
    ensures !Ended(a.table, w, OwnPartition(w, period)) ==> LateWeight(b, w, period, most, t) + 1 <= LateWeight(a, w, period, most, t)
    ensures Ended(a.table, w, OwnPartition(w, period)) ==> Ended(b.table, w, OwnPartition(w, period))
  {
    TakeKeeps(a, turn, b, w, period, most);
    TakesPast(a, turn, b, w, period, t);
    TakesOld(a, turn, b, w, period, t);
    if Ended(a.table, w, OwnPartition(w, period)) {
      EndedStays(a, turn, b, w, period);
    } else {
      TurnCosts(a, turn, b, w, period, most);
      if Setback(turn, b) { SetbackUsesUp(a, turn, b, w, period, most, t); }
      OldCount(Old(a.table, t), Old(b.table, t), Setback(turn, b), if Setback(turn, b) then turn.step.mend.candidate else 0, 2 * (most + 1));
    }
  }

  lemma LateLawful(w: Worker, period: nat, most: nat, t: nat)
    ensures Lawful(Taking(w, period), NEVER, LateFit(w, period, most, t), AtEnd(w, period), LateWeighing(w, period, most, t), 0)
  {
    var takes, fit, ended, weight := Taking(w, period), LateFit(w, period, most, t), AtEnd(w, period), LateWeighing(w, period, most, t);
    var never, none := NEVER, 0;
    forall a, turn, b ensures Law(takes, never, fit, ended, weight, none, a, turn, b) {
      if fit(a) && takes(a, turn, b) { LateTurnCosts(a, turn, b, w, period, most, t); }
    }
  }

  /** Once a call begins after every deadline that matters, the sweep ends wherever it crashes, within as
      many commits as its state weighs and `2 * (most + 1)` for each recomputation begun before. */
  lemma LateSweepEnds(run: nat -> Sweeper, turns: nat -> Turn, i: nat, n: nat, w: Worker, period: nat, most: nat, t: nat)
    requires i <= n && Follows(Taking(w, period), run, turns, i, n)
    requires Ready(run(i).table, w, period) && RowsWithin(run(i).table, most) && Timed(run(i))
    requires Past(run(i).table, OwnPartition(w, period), t) && Late(run(i), t)
    requires n - i > LateWeight(run(i), w, period, most, t)
    ensures Ended(run(n).table, w, OwnPartition(w, period)) && Erased(run(n).table, OwnPartition(w, period))
  {
    var fit, ended := LateFit(w, period, most, t), AtEnd(w, period);
    LateLawful(w, period, most, t);
    NoSetbacks(NEVER, run, turns, i, n);
    RunCosts(Taking(w, period), NEVER, fit, ended, LateWeighing(w, period, most, t), 0, run, turns, i, n);
    assert ended(run(n)) && fit(run(n));
    EndedErased(run(n).table, w, OwnPartition(w, period));
  }

  // ---------------------------------------------------------------- a clock that passes the deadlines

  /** Fit, and the deadlines that matter have passed. */
  ghost function Overdue(w: Worker, period: nat, most: nat, t: nat, candidates: nat): Sweeper -> bool {
    (a: Sweeper) =>
      && Ready(a.table, w, period) && RowsWithin(a.table, most) && Timed(a)
      && Past(a.table, OwnPartition(w, period), t) && a.table.clock >= t && |a.table.cells.Keys| <= candidates
  }

  lemma TakesCells(a: Sweeper, turn: Turn, b: Sweeper, w: Worker, period: nat)
    requires Takes(a, turn, b, w, period)
    ensures b.table.cells.Keys == a.table.cells.Keys
  {
    CommitsSweeping(At(a.table, turn.time), w, period, Finished(a), turn.reading, turn.step);
  }

  lemma OverdueKept(a: Sweeper, turn: Turn, b: Sweeper, w: Worker, period: nat, most: nat, t: nat, candidates: nat)
    requires Overdue(w, period, most, t, candidates)(a) && Takes(a, turn, b, w, period)
    ensures Overdue(w, period, most, t, candidates)(b)
  {
    TakeKeeps(a, turn, b, w, period, most);
    TakesPast(a, turn, b, w, period, t);
    TakesCells(a, turn, b, w, period);
  }

  lemma OverdueStable(w: Worker, period: nat, most: nat, t: nat, candidates: nat)
    ensures Stable(Taking(w, period), Overdue(w, period, most, t, candidates))
  {
    var takes, overdue := Taking(w, period), Overdue(w, period, most, t, candidates);
    forall a, turn, b | overdue(a) && takes(a, turn, b) ensures overdue(b) { OverdueKept(a, turn, b, w, period, most, t, candidates); }
  }

  /** Between two calls of an overdue sweep the next one begins late enough. */
  lemma OverdueLate(a: Sweeper, w: Worker, period: nat, most: nat, t: nat, candidates: nat)
    requires Overdue(w, period, most, t, candidates)(a) && a.call.None?
    ensures Ready(a.table, w, period) && RowsWithin(a.table, most) && Timed(a) && Past(a.table, OwnPartition(w, period), t) && Late(a, t)
    ensures |Old(a.table, t)| <= candidates
  {
    SubsetSize(Old(a.table, t), a.table.cells.Keys);
  }

  lemma NotOverNoSetback(run: nat -> Sweeper, turns: nat -> Turn, k: nat, w: Worker, period: nat)
    requires TakesAt(Taking(w, period), run, turns, k) && run(k + 1).call.Some?
    ensures !SETBACK(turns(k), run(k + 1))
  {
  }

  /** While a call goes on there is no setback. */
  lemma NoSetbackInCall(run: nat -> Sweeper, turns: nat -> Turn, i: nat, n: nat, w: Worker, period: nat)
    requires i <= n && Follows(Taking(w, period), run, turns, i, n) && forall k :: i < k <= n ==> run(k).call.Some?
    ensures Setbacks(SETBACK, run, turns, i, n) == 0
  {
    forall k: nat | i <= k < n ensures !SETBACK(turns(k), run(k + 1)) {
      assert TakesAt(Taking(w, period), run, turns, k);
      NotOverNoSetback(run, turns, k, w, period);
    }
    NoSetbacks(SETBACK, run, turns, i, n);
  }

  /** The first moment from `i` on at which no call is in progress, if there is one up to `n`. */
  lemma FirstBreak(run: nat -> Sweeper, i: nat, n: nat) returns (m: nat)
    requires i <= n
    ensures i <= m <= n && (forall k :: i <= k < m ==> run(k).call.Some?) && (m < n ==> run(m).call.None?)
  {
    m := i;
    while m < n && run(m).call.Some?
      invariant i <= m <= n && forall k :: i <= k < m ==> run(k).call.Some?
    {
      m := m + 1;
    }
  }

  lemma {:induction false} OneSetbackInCall(run: nat -> Sweeper, turns: nat -> Turn, i: nat, m: nat, w: Worker, period: nat)
    requires i <= m && Follows(Taking(w, period), run, turns, i, m) && forall k :: i <= k < m ==> run(k).call.Some?
    ensures Setbacks(SETBACK, run, turns, i, m) <= 1
  {
    if i < m { NoSetbackInCall(run, turns, i, m - 1, w, period); }
  }

  /** The commits that an overdue sweep of weight `weight` may still take. */
  function OverdueBound(weight: nat, most: nat, candidates: nat): nat { weight + (candidates + 1) * (2 * (most + 1)) }

  lemma BoundLeft(before: nat, weight: nat, taken: nat, total: nat, setbacks: nat, early: nat, most: nat, candidates: nat)
    requires total > OverdueBound(before, most, candidates) && taken <= total && setbacks <= 1 && early <= candidates
    requires taken + weight <= before + setbacks * (2 * (most + 1))
    ensures total - taken > weight + early * (2 * (most + 1))
  {
    var penalty := 2 * (most + 1);
    Scaled(setbacks, 1, penalty);
    Scaled(early, candidates, penalty);
    Scaled(candidates, candidates, penalty);
  }

  /** The costs of a run so far. */
  lemma FitCosts(run: nat -> Sweeper, turns: nat -> Turn, i: nat, m: nat, w: Worker, period: nat, most: nat)
    requires i <= m && Follows(Taking(w, period), run, turns, i, m)
    requires Ready(run(i).table, w, period) && RowsWithin(run(i).table, most) && Timed(run(i))
    ensures !AtEnd(w, period)(run(m)) ==>
              m - i + WeightOf(run(m), w, period, most) <= WeightOf(run(i), w, period, most) + Setbacks(SETBACK, run, turns, i, m) * (2 * (most + 1))
    ensures Ready(run(m).table, w, period) && RowsWithin(run(m).table, most) && Timed(run(m))
  {
    SweeperLawful(w, period, most);
    RunCosts(Taking(w, period), SETBACK, Fit(w, period, most), AtEnd(w, period), Weighing(w, period, most), 2 * (most + 1), run, turns, i, m);
    assert Fit(w, period, most)(run(m));
  }

  lemma EndStays(run: nat -> Sweeper, turns: nat -> Turn, i: nat, n: nat, w: Worker, period: nat, most: nat)
    requires i <= n && Follows(Taking(w, period), run, turns, i, n) && AtEnd(w, period)(run(i))
    requires Ready(run(i).table, w, period) && RowsWithin(run(i).table, most) && Timed(run(i))
    ensures Ended(run(n).table, w, OwnPartition(w, period)) && Erased(run(n).table, OwnPartition(w, period))
  {
    SweeperLawful(w, period, most);
    RunCosts(Taking(w, period), SETBACK, Fit(w, period, most), AtEnd(w, period), Weighing(w, period, most), 2 * (most + 1), run, turns, i, n);
    assert AtEnd(w, period)(run(n)) && Fit(w, period, most)(run(n));
    EndedErased(run(n).table, w, OwnPartition(w, period));
  }

  /** From the break between two calls of an overdue sweep. */
  lemma EndsAfterBreak(run: nat -> Sweeper, turns: nat -> Turn, m: nat, n: nat, w: Worker, period: nat, most: nat, t: nat, candidates: nat)
    requires m <= n && Follows(Taking(w, period), run, turns, m, n) && run(m).call.None?
    requires Overdue(w, period, most, t, candidates)(run(m))
    requires n - m > WeightOf(run(m), w, period, most) + |Old(run(m).table, t)| * (2 * (most + 1))
    ensures Ended(run(n).table, w, OwnPartition(w, period)) && Erased(run(n).table, OwnPartition(w, period))
  {
    OverdueLate(run(m), w, period, most, t, candidates);
    LateSweepEnds(run, turns, m, n, w, period, most, t);
  }

  lemma ReachedAfter(run: nat -> Sweeper, turns: nat -> Turn, i: nat, m: nat, n: nat, w: Worker, period: nat, most: nat, t: nat, candidates: nat)
    requires i <= m <= n && Follows(Taking(w, period), run, turns, i, n)
    requires Overdue(w, period, most, t, candidates)(run(i)) && n - i > OverdueBound(WeightOf(run(i), w, period, most), most, candidates)
    requires Setbacks(SETBACK, run, turns, i, m) <= 1 && (m < n ==> run(m).call.None?)
    ensures Ended(run(n).table, w, OwnPartition(w, period)) && Erased(run(n).table, OwnPartition(w, period))
  {
    assert Follows(Taking(w, period), run, turns, i, m) && Follows(Taking(w, period), run, turns, m, n);
    OverdueFit(run(i), w, period, most, t, candidates);
    FitCosts(run, turns, i, m, w, period, most);
    if AtEnd(w, period)(run(m)) {
      EndStays(run, turns, m, n, w, period, most);
    } else {
      OverdueStable(w, period, most, t, candidates);
      StaysGood(Taking(w, period), Overdue(w, period, most, t, candidates), run, turns, i, m);
      NotYetReached(run, turns, i, m, n, w, period, most, t, candidates);
    }
  }

  lemma NotYetReached(run: nat -> Sweeper, turns: nat -> Turn, i: nat, m: nat, n: nat, w: Worker, period: nat, most: nat, t: nat, candidates: nat)
    requires i <= m <= n && Follows(Taking(w, period), run, turns, m, n) && Overdue(w, period, most, t, candidates)(run(m))
    requires n - i > OverdueBound(WeightOf(run(i), w, period, most), most, candidates)
    requires Setbacks(SETBACK, run, turns, i, m) <= 1 && (m < n ==> run(m).call.None?)
    requires m - i + WeightOf(run(m), w, period, most) <= WeightOf(run(i), w, period, most) + Setbacks(SETBACK, run, turns, i, m) * (2 * (most + 1))
    ensures Ended(run(n).table, w, OwnPartition(w, period)) && Erased(run(n).table, OwnPartition(w, period))
  {
    var before, weight, setbacks := WeightOf(run(i), w, period, most), WeightOf(run(m), w, period, most), Setbacks(SETBACK, run, turns, i, m);
    if run(m).call.None? {
      OverdueLate(run(m), w, period, most, t, candidates);
      BoundLeft(before, weight, m - i, n - i, setbacks, |Old(run(m).table, t)|, most, candidates);
      EndsAfterBreak(run, turns, m, n, w, period, most, t, candidates);
    } else {
      BoundLeft(before, weight, m - i, n - i, setbacks, 0, most, candidates);
    }
  }

  lemma OverdueFit(a: Sweeper, w: Worker, period: nat, most: nat, t: nat, candidates: nat)
    requires Overdue(w, period, most, t, candidates)(a)
    ensures Ready(a.table, w, period) && RowsWithin(a.table, most) && Timed(a)
  {
  }

  /** Once the clock has passed every deadline that matters, the sweep ends wherever it crashes, within a
      fixed number of commits: the call in progress may still begin one recomputation too early, and each
      candidate may hold one from before. */
  lemma OverdueSweepEnds(run: nat -> Sweeper, turns: nat -> Turn, i: nat, n: nat, w: Worker, period: nat, most: nat, t: nat, candidates: nat)
    requires i <= n && Follows(Taking(w, period), run, turns, i, n) && Overdue(w, period, most, t, candidates)(run(i))
    requires n - i > OverdueBound(WeightOf(run(i), w, period, most), most, candidates)
    ensures Ended(run(n).table, w, OwnPartition(w, period)) && Erased(run(n).table, OwnPartition(w, period))
  {
    var m := FirstBreak(run, i, n);
    OneSetbackInCall(run, turns, i, m, w, period);
    ReachedAfter(run, turns, i, m, n, w, period, most, t, candidates);
  }

  lemma EndsOncePast(run: nat -> Sweeper, turns: nat -> Turn, i: nat, w: Worker, period: nat, most: nat, t: nat, candidates: nat)
    requires Forever(Taking(w, period), run, turns) && Overdue(w, period, most, t, candidates)(run(i))
    ensures Reaches(AtEnd(w, period), run)
  {
    var n := i + OverdueBound(WeightOf(run(i), w, period, most), most, candidates) + 1;
    OverdueSweepEnds(run, turns, i, n, w, period, most, t, candidates);
    assert AtEnd(w, period)(run(n));
  }

  /** Nothing a sweep recomputes outlives the horizon of its period. */
  lemma PastHorizon(s: State, p: Partition)
    requires Table.Inv(s)
    ensures Past(s, p, Horizon(p.period))
  {
    forall c | Exposed(s, p, c) ensures ExpiredBy(s.cells[c], p.token, Horizon(p.period)) { LinkedPeriod(s, p, c); }
  }

  lemma LinkedPeriod(s: State, p: Partition, c: CandidateId)
    requires Known(s) && c in s.cells && Linked(s, p, c)
    ensures s.cells[c].period == p.period
  {
    if Names(CleanupAt(s, p), c) {
      OwnRowKnown(s, p, c);
    } else {
      assert KnownKey(s, p, CandidateKey(c));
    }
  }

  /** Repeated sweeps, crashing wherever they like, reach the end of the pass as time passes: once the
      clock shows the period's horizon, a fixed number of commits is enough. */
  lemma HorizonSweepEnds(run: nat -> Sweeper, turns: nat -> Turn, i: nat, n: nat, w: Worker, period: nat, most: nat)
    requires i <= n && Follows(Taking(w, period), run, turns, i, n)
    requires Ready(run(i).table, w, period) && RowsWithin(run(i).table, most) && Timed(run(i)) && run(i).table.clock >= Horizon(period)
    requires n - i > OverdueBound(WeightOf(run(i), w, period, most), most, |run(i).table.cells.Keys|)
    ensures Ended(run(n).table, w, OwnPartition(w, period)) && Erased(run(n).table, OwnPartition(w, period))
  {
    PastHorizon(run(i).table, OwnPartition(w, period));
    assert Overdue(w, period, most, Horizon(period), |run(i).table.cells.Keys|)(run(i));
    OverdueSweepEnds(run, turns, i, n, w, period, most, Horizon(period), |run(i).table.cells.Keys|);
  }
}
