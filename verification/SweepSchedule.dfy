/** Exactly when a sweep can go on for ever: if and only if some open candidate that it still has to
    recompute holds another contributor's row that outlives every clock reading. */
module SweepSchedule {
  import opened Basics
  import opened Candidate
  import opened CandidateSteps
  import opened Table
  import opened Observations
  import opened Fences
  import opened Erasure
  import opened SweepWorker
  import opened RankedRuns
  import opened SweepTermination
  import opened SweepClock
  import Repair

  type Step = SweepTermination.Step

  /** The clock at each commit. */
  type Schedule = nat -> nat

  ghost predicate Rising(times: Schedule) { forall i: nat, j: nat :: i <= j ==> times(i) <= times(j) }

  ghost predicate OnTime(turns: nat -> Turn, times: Schedule) { forall k: nat :: turns(k).time == times(k) }

  ghost predicate Outlasts(deadline: nat, times: Schedule) { forall k: nat :: times(k) < deadline }

  /** A row of somebody else, in an open candidate that the sweep still has to recompute. */
  predicate InTheWay(s: State, p: Partition, c: CandidateId, u: Token) {
    Exposed(s, p, c) && u in s.cells[c].rows && u != p.token
  }

  ghost predicate Lasts(s: State, p: Partition, c: CandidateId, u: Token, times: Schedule) {
    InTheWay(s, p, c, u) && Outlasts(s.cells[c].rows[u].expiresAt, times)
  }

  /** A sweep from `a` by this schedule that never reaches the end of its pass. */
  ghost predicate Endless(a: Sweeper, run: nat -> Sweeper, turns: nat -> Turn, times: Schedule, w: Worker, period: nat) {
    run(0) == a && Forever(Taking(w, period), run, turns) && OnTime(turns, times) && !Reaches(AtEnd(w, period), run)
  }

  // ---------------------------------------------------------------- without such a row it ends

  function DeadlinesIn(s: State, p: Partition): set<nat> {
    set c, u | c in s.cells && u in s.cells[c].rows && InTheWay(s, p, c, u) :: s.cells[c].rows[u].expiresAt
  }

  lemma {:induction false} Largest(values: set<nat>) returns (t: nat)
    ensures (forall v :: v in values ==> v <= t) && (t in values || (values == {} && t == 0))
    decreases values
  {
    t := 0;
    if values != {} {
      var v :| v in values;
      var rest := Largest(values - {v});
      t := if rest > v then rest else v;
      forall x | x in values ensures x <= t { assert x == v || x in values - {v}; }
    }
  }

  lemma LatestDeadline(s: State, p: Partition) returns (t: nat)
    ensures Past(s, p, t) && (t == 0 || exists c, u :: InTheWay(s, p, c, u) && s.cells[c].rows[u].expiresAt == t)
  {
    t := Largest(DeadlinesIn(s, p));
    forall c | Exposed(s, p, c) ensures ExpiredBy(s.cells[c], p.token, t) {
      forall u | u in s.cells[c].rows && u != p.token ensures s.cells[c].rows[u].expiresAt <= t {
        assert InTheWay(s, p, c, u) && s.cells[c].rows[u].expiresAt in DeadlinesIn(s, p);
      }
    }
  }

  ghost function Watched(w: Worker, period: nat, most: nat, t: nat, candidates: nat): Sweeper -> bool {
    (a: Sweeper) =>
      && Ready(a.table, w, period) && RowsWithin(a.table, most) && Timed(a)
      && Past(a.table, OwnPartition(w, period), t) && |a.table.cells.Keys| <= candidates
  }

  lemma WatchedKept(a: Sweeper, turn: Turn, b: Sweeper, w: Worker, period: nat, most: nat, t: nat, candidates: nat)
    requires Watched(w, period, most, t, candidates)(a) && Takes(a, turn, b, w, period)
    ensures Watched(w, period, most, t, candidates)(b) && b.table.clock == turn.time
  {
    TakeKeeps(a, turn, b, w, period, most);
    TakesPast(a, turn, b, w, period, t);
    TakesCells(a, turn, b, w, period);
  }

  lemma WatchedStable(w: Worker, period: nat, most: nat, t: nat, candidates: nat)
    ensures Stable(Taking(w, period), Watched(w, period, most, t, candidates))
  {
    var takes, good := Taking(w, period), Watched(w, period, most, t, candidates);
    forall a, turn, b | good(a) && takes(a, turn, b) ensures good(b) { WatchedKept(a, turn, b, w, period, most, t, candidates); }
  }

  lemma WatchedOverdue(a: Sweeper, w: Worker, period: nat, most: nat, t: nat, candidates: nat)
    requires Watched(w, period, most, t, candidates)(a) && a.table.clock >= t
    ensures Overdue(w, period, most, t, candidates)(a)
  {
  }

  /** A schedule that reaches the latest deadline ends every sweep. */
  lemma EndsBy(a: Sweeper, run: nat -> Sweeper, turns: nat -> Turn, times: Schedule, w: Worker, period: nat, t: nat, k: nat)
    requires Ready(a.table, w, period) && Timed(a) && Past(a.table, OwnPartition(w, period), t) && times(k) >= t
    requires run(0) == a && Forever(Taking(w, period), run, turns) && OnTime(turns, times)
    ensures Reaches(AtEnd(w, period), run)
  {
    var most := MostRows(a.table);
    var candidates := |a.table.cells.Keys|;
    assert Watched(w, period, most, t, candidates)(run(0));
    OverdueAfter(run, turns, times, w, period, most, t, candidates, k);
    EndsOncePast(run, turns, k + 1, w, period, most, t, candidates);
  }

  lemma OverdueAfter(run: nat -> Sweeper, turns: nat -> Turn, times: Schedule, w: Worker, period: nat, most: nat, t: nat, candidates: nat, k: nat)
    requires Forever(Taking(w, period), run, turns) && OnTime(turns, times) && times(k) >= t
    requires Watched(w, period, most, t, candidates)(run(0))
    ensures Overdue(w, period, most, t, candidates)(run(k + 1))
  {
    WatchedStable(w, period, most, t, candidates);
    StaysGood(Taking(w, period), Watched(w, period, most, t, candidates), run, turns, 0, k);
    assert TakesAt(Taking(w, period), run, turns, k);
    WatchedKept(run(k), turns(k), run(k + 1), w, period, most, t, candidates);
    WatchedOverdue(run(k + 1), w, period, most, t, candidates);
  }

  lemma EndlessNeedsLasting(a: Sweeper, run: nat -> Sweeper, turns: nat -> Turn, times: Schedule, w: Worker, period: nat)
      returns (c: CandidateId, u: Token)
    requires Ready(a.table, w, period) && Timed(a) && Endless(a, run, turns, times, w, period)
    ensures Lasts(a.table, OwnPartition(w, period), c, u, times)
  {
    var t := LatestDeadline(a.table, OwnPartition(w, period));
    if k: nat :| times(k) >= t {
      EndsBy(a, run, turns, times, w, period, t, k);
      assert false;
    }
    assert times(0) < t;
    c, u :| InTheWay(a.table, OwnPartition(w, period), c, u) && a.table.cells[c].rows[u].expiresAt == t;
  }

  // ---------------------------------------------------------------- with such a row it need not end

  /** The traversal waits for this candidate to be recomputed. */
  predicate Waits(s: State, w: Worker, p: Partition, c: CandidateId) {
    Names(CleanupAt(s, p), c) && CleanupAt(s, p).value.Recompute? && CleanupAt(s, p).value.operation == w.operation
  }

  /** A commit that recomputes the candidate and leaves it open, with the same rows. */
  ghost predicate LapStep(s: State, w: Worker, c: CandidateId, reading: nat, step: Step, ch: Change)
    requires c in s.cells
  {
    && Can(s, step) && Repairs(s, step, w, c, reading)
    && WritesOf(s, step) == NO_WRITES.(cell := Modify(c, ch))
    && Admissible(s.cells[c], ch) && OpenCell(Next(s.cells[c], ch)) && Next(s.cells[c], ch).rows == s.cells[c].rows
  }

  lemma RestartLap(s: State, w: Worker, c: CandidateId, reading: nat) returns (step: Step, ch: Change)
    requires CommandLive(s, w) && c in s.cells && OpenCell(s.cells[c]) && !InProgress(s.cells[c]) && reading <= s.clock
    ensures LapStep(s, w, c, reading, step, ch)
  {
    step, ch := Fix(Repair.RecomputeRestart(w, c, 0, 0, reading)), Restart(s.cells[c].summary.value, reading);
  }

  /** Somebody is found by a recomputation whose cutoff lies before the row's deadline. */
  lemma FindsSomebody(cell: Cell, u: Token, page: seq<Token>, totals: Partial)
    requires CandidateSteps.Inv(cell) && InProgress(cell) && u in cell.rows && cell.rows[u].expiresAt > cell.checkpoint.value.cutoff
    requires IsPage(cell.rows, cell.checkpoint.value.cursor, page, None, Repair.PAGE_SIZE)
    requires FoldPage(cell.checkpoint.value.partial, cell.rows, page, |page|, cell.checkpoint.value.cutoff) == Some(totals)
    ensures totals.contributors > 0
  {
    var saved := cell.checkpoint.value;
    PageExtendsFold(saved, cell.rows, page, None);
    SmallerSet({}, Unexpired(cell.rows, saved.cutoff), u);
  }

  /** What the page folds to, read from the state the step is committed to. */
  ghost predicate FoldsTo(cell: Cell, page: seq<Token>, totals: Partial) {
    cell.checkpoint.Some? && (forall i :: 0 <= i < |page| ==> page[i] in cell.rows)
    && FoldPage(cell.checkpoint.value.partial, cell.rows, page, |page|, cell.checkpoint.value.cutoff) == Some(totals)
  }

  lemma AdvanceWrites(s: State, w: Worker, c: CandidateId, page: seq<Token>, totals: Partial)
    requires c in s.cells && Repair.Enabled([s], 0, Repair.RecomputeAdvance(w, c, 0, 0, 0, page)) && FoldsTo(s.cells[c], page, totals)
    ensures Repair.Writes([s], 0, Repair.RecomputeAdvance(w, c, 0, 0, 0, page)) ==
            NO_WRITES.(cell := Modify(c, Advance(s.cells[c].checkpoint.value, page, totals)))
    ensures IsPage(s.cells[c].rows, s.cells[c].checkpoint.value.cursor, page, Some(page[|page| - 1]), Repair.PAGE_SIZE)
  {
  }

  lemma AdvanceAdmits(cell: Cell, page: seq<Token>, totals: Partial)
    requires OpenCell(cell) && InProgress(cell) && page != [] && FoldsTo(cell, page, totals)
    requires IsPage(cell.rows, cell.checkpoint.value.cursor, page, Some(page[|page| - 1]), Repair.PAGE_SIZE)
    ensures var ch := Advance(cell.checkpoint.value, page, totals);
            Admissible(cell, ch) && OpenCell(Next(cell, ch)) && Next(cell, ch).rows == cell.rows
  {
  }

  lemma AdvanceLap(s: State, w: Worker, c: CandidateId, reading: nat, page: seq<Token>, totals: Partial)
    requires c in s.cells && OpenCell(s.cells[c]) && InProgress(s.cells[c]) && page != []
    requires Repair.Enabled([s], 0, Repair.RecomputeAdvance(w, c, 0, 0, 0, page)) && FoldsTo(s.cells[c], page, totals)
    ensures LapStep(s, w, c, reading, Fix(Repair.RecomputeAdvance(w, c, 0, 0, 0, page)), Advance(s.cells[c].checkpoint.value, page, totals))
  {
    AdvanceWrites(s, w, c, page, totals);
    AdvanceAdmits(s.cells[c], page, totals);
  }

  lemma FinishWrites(s: State, w: Worker, c: CandidateId, page: seq<Token>, totals: Partial)
    requires c in s.cells && s.cells[c].summary.Some?
    requires Repair.Enabled([s], 0, Repair.RecomputeFinish(w, c, 0, 0, 0, page)) && FoldsTo(s.cells[c], page, totals)
    ensures Repair.Writes([s], 0, Repair.RecomputeFinish(w, c, 0, 0, 0, page)) ==
            NO_WRITES.(cell := Modify(c, Finish(s.cells[c].summary.value, s.cells[c].checkpoint.value, page, totals)))
    ensures IsPage(s.cells[c].rows, s.cells[c].checkpoint.value.cursor, page, None, Repair.PAGE_SIZE)
    ensures totals.contributors == 0 || totals.vectors > 0
  {
  }

  lemma FinishAdmits(cell: Cell, page: seq<Token>, totals: Partial)
    requires OpenCell(cell) && InProgress(cell) && FoldsTo(cell, page, totals) && totals.contributors > 0 && totals.vectors > 0
    requires IsPage(cell.rows, cell.checkpoint.value.cursor, page, None, Repair.PAGE_SIZE)
    ensures var ch := Finish(cell.summary.value, cell.checkpoint.value, page, totals);
            Admissible(cell, ch) && OpenCell(Next(cell, ch)) && Next(cell, ch).rows == cell.rows
  {
  }

  lemma FinishLap(s: State, w: Worker, c: CandidateId, reading: nat, page: seq<Token>, totals: Partial)
    requires c in s.cells && OpenCell(s.cells[c]) && InProgress(s.cells[c]) && totals.contributors > 0
    requires Repair.Enabled([s], 0, Repair.RecomputeFinish(w, c, 0, 0, 0, page)) && FoldsTo(s.cells[c], page, totals)
    ensures LapStep(s, w, c, reading, Fix(Repair.RecomputeFinish(w, c, 0, 0, 0, page)),
                    Finish(s.cells[c].summary.value, s.cells[c].checkpoint.value, page, totals))
  {
    FinishWrites(s, w, c, page, totals);
    FinishAdmits(s.cells[c], page, totals);
  }

  lemma PageLap(s: State, w: Worker, c: CandidateId, reading: nat, u: Token) returns (step: Step, ch: Change)
    requires CommandLive(s, w) && c in s.cells && OpenCell(s.cells[c]) && InProgress(s.cells[c])
    requires CandidateSteps.Inv(s.cells[c]) && Regular(s.cells[c])
    requires u in s.cells[c].rows && s.cells[c].rows[u].expiresAt > s.cells[c].checkpoint.value.cutoff
    ensures LapStep(s, w, c, reading, step, ch)
  {
    var saved := s.cells[c].checkpoint.value;
    var page, last, totals := FoldablePage(s.cells[c]);
    PageEnabled(s, w, c, page, last, totals);
    if last.Some? {
      step, ch := Fix(Repair.RecomputeAdvance(w, c, 0, 0, 0, page)), Advance(saved, page, totals);
      AdvanceLap(s, w, c, reading, page, totals);
    } else {
      step, ch := Fix(Repair.RecomputeFinish(w, c, 0, 0, 0, page)), Finish(s.cells[c].summary.value, saved, page, totals);
      FindsSomebody(s.cells[c], u, page, totals);
      FinishLap(s, w, c, reading, page, totals);
    }
  }

  lemma LapExists(s: State, w: Worker, period: nat, c: CandidateId, reading: nat, u: Token) returns (step: Step, ch: Change)
    requires Ready(s, w, period) && c in s.cells && OpenCell(s.cells[c]) && u in s.cells[c].rows
    requires s.cells[c].rows[u].expiresAt > s.clock >= reading
    ensures LapStep(s, w, c, reading, step, ch)
  {
    assert CandidateSteps.Inv(s.cells[c]) && Regular(s.cells[c]);
    if InProgress(s.cells[c]) {
      step, ch := PageLap(s, w, c, reading, u);
    } else {
      step, ch := RestartLap(s, w, c, reading);
    }
  }

  lemma LapKeeps(s: State, w: Worker, p: Partition, c: CandidateId, reading: nat, step: Step, ch: Change, u: Token)
    requires InTheWay(s, p, c, u) && LapStep(s, w, c, reading, step, ch)
    ensures var n := Apply(s, WritesOf(s, step));
            InTheWay(n, p, c, u) && n.cells[c].rows == s.cells[c].rows && CleanupAt(n, p) == CleanupAt(s, p)
  {
  }

  lemma LapCommits(s: State, w: Worker, period: nat, c: CandidateId, reading: nat, step: Step, ch: Change)
    requires Waits(s, w, OwnPartition(w, period), c) && c in s.cells && OpenCell(s.cells[c]) && LapStep(s, w, c, reading, step, ch)
    ensures SweepCommits(s, w, period, false, reading, step)
  {
  }

  lemma MoveKeeps(s: State, w: Worker, period: nat, finished: bool, reading: nat, step: Step, c: CandidateId, u: Token)
    requires SweepCommits(s, w, period, finished, reading, step) && Moves(step, w, period) && Sound(s, WritesOf(s, step))
    requires InTheWay(s, OwnPartition(w, period), c, u) && !Waits(s, w, OwnPartition(w, period), c)
    ensures var n := Apply(s, WritesOf(s, step)); InTheWay(n, OwnPartition(w, period), c, u) && n.cells[c] == s.cells[c]
  {
    PartAfter(s, WritesOf(s, step), OwnPartition(w, period));
  }

  lemma EraseKeeps(s: State, w: Worker, period: nat, finished: bool, reading: nat, step: Step, c: CandidateId, u: Token)
    requires SweepCommits(s, w, period, finished, reading, step) && Erases(step, w, period) && Sound(s, WritesOf(s, step))
    requires InTheWay(s, OwnPartition(w, period), c, u)
    ensures var n := Apply(s, WritesOf(s, step));
            InTheWay(n, OwnPartition(w, period), c, u) && n.cells[c].rows[u] == s.cells[c].rows[u]
  {
    PartAfter(s, WritesOf(s, step), OwnPartition(w, period));
  }

  lemma RepairKeeps(s: State, w: Worker, p: Partition, d: CandidateId, reading: nat, step: Step, c: CandidateId, u: Token)
    requires Can(s, step) && Repairs(s, step, w, d, reading) && Sound(s, WritesOf(s, step)) && Names(CleanupAt(s, p), d)
    requires InTheWay(s, p, c, u) && c != d
    ensures var n := Apply(s, WritesOf(s, step));
            InTheWay(n, p, c, u) && n.cells[c] == s.cells[c] && CleanupAt(n, p) == CleanupAt(s, p)
  {
    RepairWrites(s, w, d, reading, step);
    RepairDrops(s, w, d, reading, step);
    PartAfter(s, WritesOf(s, step), p);
  }

  lemma RepairDrops(s: State, w: Worker, d: CandidateId, reading: nat, step: Step)
    requires Can(s, step) && Repairs(s, step, w, d, reading)
    ensures WritesOf(s, step).locator.NoLocator? || WritesOf(s, step).locator.key == CandidateKey(d)
  {
  }

  /** Any commit but one that recomputes this candidate leaves the row in the way. */
  lemma OtherKeeps(s: State, w: Worker, period: nat, finished: bool, reading: nat, step: Step, c: CandidateId, u: Token)
    requires SweepCommits(s, w, period, finished, reading, step) && Sound(s, WritesOf(s, step))
    requires InTheWay(s, OwnPartition(w, period), c, u) && !Waits(s, w, OwnPartition(w, period), c)
    ensures var n := Apply(s, WritesOf(s, step));
            && InTheWay(n, OwnPartition(w, period), c, u) && n.cells[c].rows[u] == s.cells[c].rows[u]
            && !(Remembers(step) && Names(CleanupAt(n, OwnPartition(w, period)), c))
  {
    if Moves(step, w, period) {
      MoveKeeps(s, w, period, finished, reading, step, c, u);
    } else if Erases(step, w, period) {
      EraseKeeps(s, w, period, finished, reading, step, c, u);
    } else {
      RepairKeeps(s, w, OwnPartition(w, period), CleanupAt(s, OwnPartition(w, period)).value.locator.key.candidate, reading, step, c, u);
    }
  }

  /** The row is in the way and the sweeper has not just finished with its candidate. */
  predicate Blocked(a: Sweeper, p: Partition, c: CandidateId, u: Token, deadline: nat) {
    && InTheWay(a.table, p, c, u) && a.table.cells[c].rows[u].expiresAt == deadline
    && !(Finished(a) && Names(CleanupAt(a.table, p), c))
  }

  /** A turn at a given time that crashes only as a setback, and leaves the row in the way. */
  ghost predicate GoesOnAt(a: Sweeper, turn: Turn, b: Sweeper, w: Worker, period: nat, c: CandidateId, u: Token, deadline: nat, time: nat) {
    && Takes(a, turn, b, w, period) && turn.time == time && (turn.over ==> Setback(turn, b))
    && !Ended(b.table, w, OwnPartition(w, period))
    && Ready(b.table, w, period) && Timed(b) && b.table.clock == time && Blocked(b, OwnPartition(w, period), c, u, deadline)
  }

  function ReadingAt(a: Sweeper, time: nat): nat { if a.call.Some? then a.call.value.reading else time }

  lemma LapTurn(a: Sweeper, w: Worker, period: nat, c: CandidateId, u: Token, deadline: nat, time: nat) returns (turn: Turn, b: Sweeper)
    requires Ready(a.table, w, period) && Timed(a) && a.table.clock <= time < deadline
    requires Blocked(a, OwnPartition(w, period), c, u, deadline) && Waits(a.table, w, OwnPartition(w, period), c)
    ensures GoesOnAt(a, turn, b, w, period, c, u, deadline, time)
  {
    var s, reading := At(a.table, time), ReadingAt(a, time);
    var most := MostRows(a.table);
    LaterReady(a.table, time, w, period, most);
    var step, ch := LapExists(s, w, period, c, reading, u);
    LapCommits(s, w, period, c, reading, step, ch);
    turn := Turn(step, reading, time, Remembers(step));
    b := TurnTaken(a, turn, w, period, most);
    LapKeeps(s, w, OwnPartition(w, period), c, reading, step, ch, u);
    InTheWayNotEnded(b.table, w, OwnPartition(w, period), c, u);
    TakeKeeps(a, turn, b, w, period, most);
  }

  lemma OtherTurn(a: Sweeper, w: Worker, period: nat, c: CandidateId, u: Token, deadline: nat, time: nat) returns (turn: Turn, b: Sweeper)
    requires Ready(a.table, w, period) && Timed(a) && a.table.clock <= time < deadline
    requires Blocked(a, OwnPartition(w, period), c, u, deadline) && !Waits(a.table, w, OwnPartition(w, period), c)
    ensures GoesOnAt(a, turn, b, w, period, c, u, deadline, time)
  {
    var s, reading := At(a.table, time), ReadingAt(a, time);
    var most := MostRows(a.table);
    LaterReady(a.table, time, w, period, most);
    var step := NextCommit(s, w, period, Finished(a), reading);
    turn := Turn(step, reading, time, false);
    b := TurnTaken(a, turn, w, period, most);
    TakeKeeps(a, turn, b, w, period, most);
    OtherKeeps(s, w, period, Finished(a), reading, step, c, u);
    InTheWayNotEnded(b.table, w, OwnPartition(w, period), c, u);
  }

  // ---------------------------------------------------------------- a sweep without end

  ghost function TakingOnTime(w: Worker, period: nat, times: Schedule): (nat, Sweeper, Turn, Sweeper) -> bool {
    (k: nat, a: Sweeper, turn: Turn, b: Sweeper) => Takes(a, turn, b, w, period) && turn.time == times(k) && (turn.over ==> Setback(turn, b))
         && !Ended(b.table, w, OwnPartition(w, period))
  }

  ghost function Held(w: Worker, period: nat, c: CandidateId, u: Token, deadline: nat, times: Schedule): (nat, Sweeper) -> bool {
    (k: nat, a: Sweeper) =>
      Ready(a.table, w, period) && Timed(a) && a.table.clock <= times(k) && Blocked(a, OwnPartition(w, period), c, u, deadline)
  }

  lemma AnyTurn(a: Sweeper, w: Worker, period: nat, c: CandidateId, u: Token, deadline: nat, time: nat) returns (turn: Turn, b: Sweeper)
    requires Ready(a.table, w, period) && Timed(a) && a.table.clock <= time < deadline
    requires Blocked(a, OwnPartition(w, period), c, u, deadline)
    ensures GoesOnAt(a, turn, b, w, period, c, u, deadline, time)
  {
    if Waits(a.table, w, OwnPartition(w, period), c) {
      turn, b := LapTurn(a, w, period, c, u, deadline, time);
    } else {
      turn, b := OtherTurn(a, w, period, c, u, deadline, time);
    }
  }

  lemma HeldNext(a: Sweeper, turn: Turn, b: Sweeper, w: Worker, period: nat, c: CandidateId, u: Token, deadline: nat, times: Schedule, k: nat)
    requires GoesOnAt(a, turn, b, w, period, c, u, deadline, times(k)) && times(k) <= times(k + 1)
    ensures TakingOnTime(w, period, times)(k, a, turn, b) && Held(w, period, c, u, deadline, times)(k + 1, b)
  {
  }

  lemma HeldGoesOn(a: Sweeper, w: Worker, period: nat, c: CandidateId, u: Token, deadline: nat, times: Schedule, k: nat)
    requires Rising(times) && Outlasts(deadline, times)
    ensures GoesOn(TakingOnTime(w, period, times), Held(w, period, c, u, deadline, times), k, a)
  {
    if Held(w, period, c, u, deadline, times)(k, a) {
      var turn, b := AnyTurn(a, w, period, c, u, deadline, times(k));
      HeldNext(a, turn, b, w, period, c, u, deadline, times, k);
    }
  }

  lemma InTheWayNotEnded(s: State, w: Worker, p: Partition, c: CandidateId, u: Token)
    requires InTheWay(s, p, c, u)
    ensures !Ended(s, w, p)
  {
  }

  lemma OnTimeTakes(run: nat -> Sweeper, turns: nat -> Turn, k: nat, w: Worker, period: nat, times: Schedule)
    requires TakesNumber(TakingOnTime(w, period, times), run, turns, k)
    ensures TakesAt(Taking(w, period), run, turns, k) && turns(k).time == times(k) && (turns(k).over ==> Setback(turns(k), run(k + 1)))
    ensures !AtEnd(w, period)(run(k + 1))
  {
  }

  lemma NeverEnds(run: nat -> Sweeper, turns: nat -> Turn, a: Sweeper, times: Schedule, w: Worker, period: nat)
    requires run(0) == a && !AtEnd(w, period)(a) && AllTaken(TakingOnTime(w, period, times), run, turns)
    ensures Endless(a, run, turns, times, w, period)
    ensures forall k: nat :: turns(k).over ==> Setback(turns(k), run(k + 1))
  {
    forall k: nat
      ensures TakesAt(Taking(w, period), run, turns, k) && turns(k).time == times(k) && (turns(k).over ==> Setback(turns(k), run(k + 1)))
    {
      assert TakesNumber(TakingOnTime(w, period, times), run, turns, k);
      OnTimeTakes(run, turns, k, w, period, times);
    }
    forall n: nat ensures !AtEnd(w, period)(run(n)) {
      if n > 0 {
        assert TakesNumber(TakingOnTime(w, period, times), run, turns, n - 1);
        OnTimeTakes(run, turns, n - 1, w, period, times);
      }
    }
  }

  /** A row that outlives the schedule can keep a sweep going for ever, with no other crashes than right
      after finished recomputations. */
  lemma LastingGoesOn(a: Sweeper, times: Schedule, w: Worker, period: nat, c: CandidateId, u: Token)
      returns (run: nat -> Sweeper, turns: nat -> Turn)
    requires Ready(a.table, w, period) && a.call.None? && Rising(times) && a.table.clock <= times(0)
    requires Lasts(a.table, OwnPartition(w, period), c, u, times)
    ensures Endless(a, run, turns, times, w, period)
    ensures forall k: nat :: turns(k).over ==> Setback(turns(k), run(k + 1))
  {
    HeldAtFirst(a, times, w, period, c, u);
    InTheWayNotEnded(a.table, w, OwnPartition(w, period), c, u);
    run, turns := HeldForever(a, times, w, period, c, u, a.table.cells[c].rows[u].expiresAt);
  }

  lemma HeldForever(a: Sweeper, times: Schedule, w: Worker, period: nat, c: CandidateId, u: Token, deadline: nat)
      returns (run: nat -> Sweeper, turns: nat -> Turn)
    requires Held(w, period, c, u, deadline, times)(0, a) && !AtEnd(w, period)(a) && Rising(times) && Outlasts(deadline, times)
    ensures Endless(a, run, turns, times, w, period)
    ensures forall k: nat :: turns(k).over ==> Setback(turns(k), run(k + 1))
  {
    AllGoOn(times, w, period, c, u, deadline);
    run, turns := Unending(TakingOnTime(w, period, times), Held(w, period, c, u, deadline, times), a);
    NeverEnds(run, turns, a, times, w, period);
  }

  lemma AllGoOn(times: Schedule, w: Worker, period: nat, c: CandidateId, u: Token, deadline: nat)
    requires Rising(times) && Outlasts(deadline, times)
    ensures forall k: nat, s :: GoesOn(TakingOnTime(w, period, times), Held(w, period, c, u, deadline, times), k, s)
  {
    forall k: nat, s ensures GoesOn(TakingOnTime(w, period, times), Held(w, period, c, u, deadline, times), k, s) {
      HeldGoesOn(s, w, period, c, u, deadline, times, k);
    }
  }

  lemma BlockedAtFirst(a: Sweeper, p: Partition, c: CandidateId, u: Token)
    requires a.call.None? && InTheWay(a.table, p, c, u)
    ensures Blocked(a, p, c, u, a.table.cells[c].rows[u].expiresAt)
  {
  }

  lemma HeldAtFirst(a: Sweeper, times: Schedule, w: Worker, period: nat, c: CandidateId, u: Token)
    requires Ready(a.table, w, period) && a.call.None? && a.table.clock <= times(0) && InTheWay(a.table, OwnPartition(w, period), c, u)
    ensures Held(w, period, c, u, a.table.cells[c].rows[u].expiresAt, times)(0, a)
  {
    BlockedAtFirst(a, OwnPartition(w, period), c, u);
  }

  /** The exact condition over runs with time: by this schedule a sweep can go on for ever if and only if
      some open candidate that it still has to recompute holds a row of another contributor that outlives
      every clock reading. */
  lemma EndlessIffLasting(a: Sweeper, times: Schedule, w: Worker, period: nat)
    requires Ready(a.table, w, period) && a.call.None? && Rising(times) && a.table.clock <= times(0)
    ensures (exists run: nat -> Sweeper, turns: nat -> Turn :: Endless(a, run, turns, times, w, period)) <==>
            (exists c, u :: Lasts(a.table, OwnPartition(w, period), c, u, times))
  {
    if run: nat -> Sweeper, turns: nat -> Turn :| Endless(a, run, turns, times, w, period) {
      var c, u := EndlessNeedsLasting(a, run, turns, times, w, period);
    }
    if c, u :| Lasts(a.table, OwnPartition(w, period), c, u, times) {
      var run, turns := LastingGoesOn(a, times, w, period, c, u);
    }
  }
}
