/** A sweeper alone on the table, crashing whenever it likes while time passes: how far it is from the
    end of its pass, and what each of its commits does to that. */
module SweepTermination {
  import opened Basics
  import opened Candidate
  import opened CandidateSteps
  import opened Table
  import opened Observations
  import opened Fences
  import opened Erasure
  import opened SweepWorker
  import RecomputeWorker
  import opened Paging
  import opened RankedRuns
  import Protocol
  import Traversal
  import Repair

  /** What a sweeper commits: a traversal step or a piece of repair. */
  datatype Step = Travel(traverse: Traversal.TraversalStep) | Fix(mend: Repair.RepairStep)

  /** Nobody interferes, so everything is read from the state the step is committed to. */
  ghost predicate Can(s: State, step: Step) {
    match step
    case Travel(x) => Traversal.Guarded([s], 0, x)
    case Fix(x) => Repair.Enabled([s], 0, x)
  }

  ghost function WritesOf(s: State, step: Step): Transaction
    requires Can(s, step)
  {
    match step
    case Travel(x) => Traversal.Writes([s], 0, x)
    case Fix(x) => Repair.Writes([s], 0, x)
  }

  // ---------------------------------------------------------------- what the sweeper commits next

  predicate Moves(step: Step, w: Worker, period: nat) {
    step.Travel? && step.traverse.MoveCleanup? && step.traverse.worker == w && step.traverse.period == period
  }

  predicate Erases(step: Step, w: Worker, period: nat) {
    step.Travel? && (step.traverse.EraseContribution? || step.traverse.EraseFeature?)
    && step.traverse.worker == w && step.traverse.period == period
  }

  /** A recomputation erases only contributions it found, and starts over with the clock reading of its
      call as cutoff. */
  predicate Repairs(s: State, step: Step, w: Worker, c: CandidateId, reading: nat) {
    step.Fix? && RecomputeWorker.PieceOf(step.mend, w, c, {reading})
    && (step.mend.CleanPublished? ==> c in s.cells && step.mend.token in s.cells[c].rows)
  }

  predicate NothingToRepair(s: State, c: CandidateId) {
    c !in s.cells || (if s.cells[c].summary.None? then s.cells[c].checkpoint.None? else s.cells[c].summary.value.phase.Frozen?)
  }

  function CleanupAt(s: State, p: Partition): Option<Cleanup> { CleanupOf(PartOf(s, p)) }

  /** The step the sweeper commits next when nobody interferes. `finished` is what a running worker
      remembers about the recomputation it just finished; a crash forgets it. `reading` is the clock reading
      of its present call. */
  ghost predicate SweepCommits(s: State, w: Worker, period: nat, finished: bool, reading: nat, step: Step) {
    var p := OwnPartition(w, period);
    && Can(s, step)
    && match CleanupAt(s, p)
       case None => Moves(step, w, period)
       case Some(c) =>
         if c.operation != w.operation || c.Seek? then Moves(step, w, period)
         else if c.Delete? then Erases(step, w, period)
         else if finished || c.locator.key.EventKey? || NothingToRepair(s, c.locator.key.candidate) then Moves(step, w, period)
         else Repairs(s, step, w, c.locator.key.candidate, reading)
  }

  predicate Remembers(step: Step) { step.Fix? && step.mend.RecomputeFinish? }

  // ---------------------------------------------------------------- the measure

  function Left(s: State, p: Partition): nat { |PartOf(s, p).locators| }

  function Foreign(s: State, w: Worker, p: Partition): nat {
    if CleanupAt(s, p).None? || CleanupAt(s, p).value.operation != w.operation then 1 else 0
  }

  function Rank(s: State, p: Partition, finished: bool): nat {
    match CleanupAt(s, p)
    case None => 0
    case Some(Seek(_, _)) => 1
    case Some(Recompute(_, _, _, _)) => if finished then 2 else 3
    case Some(Delete(_, _, locator, _)) => if locator.key in PartOf(s, p).locators then 0 else 4
  }

  function RepairOf(s: State, p: Partition): Option<Cell> {
    match CleanupAt(s, p)
    case Some(Recompute(_, _, locator, _)) =>
      if locator.key.CandidateKey? && locator.key.candidate in s.cells then Some(s.cells[locator.key.candidate]) else None
    case _ => None
  }

  predicate InProgress(c: Cell) {
    c.summary.Some? && c.checkpoint.Some? && c.checkpoint.value.summaryVersion == c.summary.value.version
  }

  function RepairStage(c: Cell): nat {
    if c.summary.None? then if c.checkpoint.None? then 0 else 1
    else
      match c.summary.value.phase
      case Frozen(_) => 0
      case Published(_, _) => 2
      case Suppressed(_) => 2
      case _ => if InProgress(c) then 3 else 4
  }

  /** The contributions a recomputation has yet to read, or a cleanup to erase. */
  function RowsLeft(c: Cell): nat {
    if c.summary.Some? && c.summary.value.phase.Final() then |c.rows|
    else if InProgress(c) then |KeysBehind(c.rows.Keys, c.checkpoint.value.cursor)|
    else 0
  }

  function Stage(s: State, p: Partition): nat {
    match RepairOf(s, p) case None => 0 case Some(c) => RepairStage(c)
  }

  function ToRead(s: State, p: Partition): nat {
    match RepairOf(s, p) case None => 0 case Some(c) => RowsLeft(c)
  }

  predicate Less5(a0: nat, a1: nat, a2: nat, a3: nat, a4: nat, b0: nat, b1: nat, b2: nat, b3: nat, b4: nat) {
    a0 < b0 || (a0 == b0 && (a1 < b1 || (a1 == b1 && (a2 < b2 || (a2 == b2 && (a3 < b3 || (a3 == b3 && a4 < b4)))))))
  }

  /** The lexicographic measure: locators left, a foreign traversal state, the phase, the stage of
      the repair, and the contributions it has yet to read or erase. */
  ghost predicate Decreases(a: State, finishedA: bool, b: State, finishedB: bool, w: Worker, period: nat) {
    var p := OwnPartition(w, period);
    Less5(Left(b, p), Foreign(b, w, p), Rank(b, p, finishedB), Stage(b, p), ToRead(b, p),
          Left(a, p), Foreign(a, w, p), Rank(a, p, finishedA), Stage(a, p), ToRead(a, p))
  }

  ghost predicate Ended(s: State, w: Worker, p: Partition) {
    && CleanupAt(s, p).Some? && CleanupAt(s, p).value.Seek? && CleanupAt(s, p).value.operation == w.operation
    && PartOf(s, p).locators == map[]
  }

  // ---------------------------------------------------------------- every commit decreases it

  /** Every repair commit but the last page brings the repair forward. */
  lemma RepairForward(c: Cell, ch: Change)
    requires CandidateSteps.Inv(c) && Admissible(c, ch)
    requires ch.Restart? || ch.Advance? || ch.DropCheckpoint? || ch.Retire? || (ch.EraseFinal? && ch.token in c.rows)
    requires ch.Restart? ==> !InProgress(c)
    requires ch.DropCheckpoint? ==> c.checkpoint.Some?
    ensures var n := Next(c, ch);
            RepairStage(n) < RepairStage(c) || (RepairStage(n) == RepairStage(c) && RowsLeft(n) < RowsLeft(c))
  {
    if ch.Advance? {
      var cursor := c.checkpoint.value.cursor;
      assert KeysBehind(c.rows.Keys, Some(ch.page[|ch.page| - 1])) <= KeysBehind(c.rows.Keys, cursor);
      SmallerSet(KeysBehind(c.rows.Keys, Some(ch.page[|ch.page| - 1])), KeysBehind(c.rows.Keys, cursor), ch.page[0]);
    } else if ch.EraseFinal? {
      assert (c.rows - {ch.token}).Keys == c.rows.Keys - {ch.token};
      assert |c.rows - {ch.token}| == |(c.rows - {ch.token}).Keys|;
    }
  }

  lemma MoveForward(s: State, w: Worker, period: nat, finished: bool, reading: nat, step: Step, after: Part)
    requires SweepCommits(s, w, period, finished, reading, step) && Moves(step, w, period) && !Ended(s, w, OwnPartition(w, period))
    requires SweptPart(PartOf(s, OwnPartition(w, period)))
    requires after.locators == PartOf(s, OwnPartition(w, period)).locators
    requires CleanupOf(after) == Some(step.traverse.next)
    ensures step.traverse.next.operation == w.operation
    ensures Foreign(s, w, OwnPartition(w, period)) == 0 ==>
              || (CleanupAt(s, OwnPartition(w, period)).value.Seek? && step.traverse.next.Delete? && step.traverse.next.locator.key in after.locators)
              || (CleanupAt(s, OwnPartition(w, period)).value.Recompute? && step.traverse.next.Seek?)
  {
  }

  lemma MoveDecreases(s: State, w: Worker, period: nat, finished: bool, reading: nat, step: Step)
    requires SweepCommits(s, w, period, finished, reading, step) && Moves(step, w, period) && !Ended(s, w, OwnPartition(w, period))
    requires SweptPart(PartOf(s, OwnPartition(w, period))) && Sound(s, WritesOf(s, step))
    ensures Decreases(s, finished, Apply(s, WritesOf(s, step)), false, w, period)
  {
    var x := WritesOf(s, step);
    PartAfter(s, x, OwnPartition(w, period));
    MoveForward(s, w, period, finished, reading, step, PartOf(Apply(s, x), OwnPartition(w, period)));
  }

  lemma EraseDecreases(s: State, w: Worker, period: nat, finished: bool, reading: nat, step: Step)
    requires SweepCommits(s, w, period, finished, reading, step) && Erases(step, w, period)
    requires Sound(s, WritesOf(s, step))
    ensures Decreases(s, finished, Apply(s, WritesOf(s, step)), false, w, period)
  {
    var x := WritesOf(s, step);
    PartAfter(s, x, OwnPartition(w, period));
  }

  /** A repair commit leaves the traversal where it is and changes one candidate. */
  lemma RepairWrites(s: State, w: Worker, c: CandidateId, reading: nat, step: Step)
    requires Can(s, step) && Repairs(s, step, w, c, reading)
    ensures var x := WritesOf(s, step);
            && x.fence.None? && x.cell.Modify? && x.cell.candidate == c && c in s.cells
            && (x.locator.NoLocator? || x.locator.DropLocator?)
            && (Remembers(step) || x.cell.change.Restart? || x.cell.change.Advance? || x.cell.change.DropCheckpoint? || x.cell.change.Retire?
                || (x.cell.change.EraseFinal? && x.cell.change.token in s.cells[c].rows))
            && (x.cell.change.Restart? ==> !InProgress(s.cells[c]))
            && (x.cell.change.DropCheckpoint? ==> s.cells[c].checkpoint.Some?)
  {
  }

  lemma DropShrinks(l: map<LocatorKey, nat>, key: LocatorKey)
    ensures |l - {key}| <= |l|
    ensures key in l ==> |l - {key}| < |l|
    ensures key !in l ==> l - {key} == l
  {
    assert (l - {key}).Keys == l.Keys - {key};
    assert |l - {key}| == |(l - {key}).Keys|;
  }

  lemma RepairLeavesTraversal(s: State, w: Worker, p: Partition, c: CandidateId, reading: nat, step: Step)
    requires Can(s, step) && Repairs(s, step, w, c, reading) && Sound(s, WritesOf(s, step))
    ensures var n := Apply(s, WritesOf(s, step));
            CleanupAt(n, p) == CleanupAt(s, p) && Left(n, p) <= Left(s, p) && (Left(n, p) == Left(s, p) ==> PartOf(n, p).locators == PartOf(s, p).locators)
  {
    var x := WritesOf(s, step);
    RepairWrites(s, w, c, reading, step);
    PartAfter(s, x, p);
    if x.locator.DropLocator? { DropShrinks(PartOf(s, p).locators, x.locator.key); }
  }

  lemma RepairChanges(s: State, w: Worker, c: CandidateId, reading: nat, step: Step)
    requires Can(s, step) && Repairs(s, step, w, c, reading) && Sound(s, WritesOf(s, step))
    requires c in s.cells && CandidateSteps.Inv(s.cells[c]) && !Remembers(step)
    ensures var n := Apply(s, WritesOf(s, step));
            && c in n.cells
            && (RepairStage(n.cells[c]) < RepairStage(s.cells[c])
                || (RepairStage(n.cells[c]) == RepairStage(s.cells[c]) && RowsLeft(n.cells[c]) < RowsLeft(s.cells[c])))
  {
    RepairWrites(s, w, c, reading, step);
    RepairForward(s.cells[c], WritesOf(s, step).cell.change);
  }

  lemma RepairDecreases(s: State, w: Worker, period: nat, c: CandidateId, reading: nat, step: Step)
    requires Can(s, step) && Repairs(s, step, w, c, reading)
    requires CleanupAt(s, OwnPartition(w, period)).Some? && CleanupAt(s, OwnPartition(w, period)).value.Recompute?
    requires CleanupAt(s, OwnPartition(w, period)).value.operation == w.operation
    requires CleanupAt(s, OwnPartition(w, period)).value.locator.key == CandidateKey(c)
    requires c in s.cells && CandidateSteps.Inv(s.cells[c]) && Sound(s, WritesOf(s, step))
    ensures Decreases(s, false, Apply(s, WritesOf(s, step)), Remembers(step), w, period)
  {
    RepairLeavesTraversal(s, w, OwnPartition(w, period), c, reading, step);
    if !Remembers(step) { RepairChanges(s, w, c, reading, step); }
  }

  /** Every commit of a sweeper that nobody interferes with decreases the measure, as long as the
      sweeper does not crash between finishing a recomputation and moving on. */
  lemma SweepDecreases(s: State, w: Worker, period: nat, finished: bool, reading: nat, step: Step)
    requires Table.Inv(s) && SweptPart(PartOf(s, OwnPartition(w, period))) && !Ended(s, w, OwnPartition(w, period))
    requires SweepCommits(s, w, period, finished, reading, step) && Sound(s, WritesOf(s, step))
    ensures Decreases(s, finished, Apply(s, WritesOf(s, step)), Remembers(step), w, period)
  {
    if Moves(step, w, period) {
      MoveDecreases(s, w, period, finished, reading, step);
    } else if Erases(step, w, period) {
      EraseDecreases(s, w, period, finished, reading, step);
    } else {
      RepairDecreasesHere(s, w, period, finished, reading, step);
    }
  }

  lemma RepairDecreasesHere(s: State, w: Worker, period: nat, finished: bool, reading: nat, step: Step)
    requires CellsSound(s) && !Moves(step, w, period) && !Erases(step, w, period)
    requires SweepCommits(s, w, period, finished, reading, step) && Sound(s, WritesOf(s, step))
    ensures Decreases(s, finished, Apply(s, WritesOf(s, step)), Remembers(step), w, period)
  {
    RepairWrites(s, w, CleanupAt(s, OwnPartition(w, period)).value.locator.key.candidate, reading, step);
    RepairDecreases(s, w, period, CleanupAt(s, OwnPartition(w, period)).value.locator.key.candidate, reading, step);
  }

  // ---------------------------------------------------------------- the sweeper can always go on

  /** Every contribution carries a vector, all of one length. */
  ghost predicate Usable(rows: Rows) {
    && (forall t :: t in rows ==> rows[t].vectorApplied)
    && (forall t, u :: t in rows && u in rows ==> |rows[t].vector| == |rows[u].vector|)
  }

  /** A well-formed table on which the command still runs. */
  ghost predicate Ready(s: State, w: Worker, period: nat) {
    && Table.Inv(s) && CommandLive(s, w)
    && PartOf(s, OwnPartition(w, period)).tombstone.Some? && SweptPart(PartOf(s, OwnPartition(w, period)))
    && (forall c :: c in s.cells ==> Regular(s.cells[c]))
  }

  /** Usable contributions and nothing else. */
  ghost predicate Regular(c: Cell) { Usable(c.rows) && c.strays == map[] }

  /** No candidate has more than `most` contributions. */
  ghost predicate RowsWithin(s: State, most: nat) {
    forall c :: c in s.cells ==> |s.cells[c].rows.Keys| <= most
  }

  ghost predicate FitsRows(p: Partial, rows: Rows) {
    p.sums == [] || forall t :: t in rows ==> |p.sums| == |rows[t].vector|
  }

  lemma {:induction false} FoldUsable(p: Partial, rows: Rows, page: seq<Token>, n: nat, cutoff: nat)
    requires Usable(rows) && FitsRows(p, rows) && n <= |page| && forall i :: 0 <= i < n ==> page[i] in rows
    requires forall t :: t in rows ==> rows[t].submissions >= 1 && UsableVector(rows[t].vector)
    ensures FoldPage(p, rows, page, n, cutoff).Some? && FitsRows(FoldPage(p, rows, page, n, cutoff).value, rows)
  {
    if n > 0 { FoldUsable(p, rows, page, n - 1, cutoff); }
  }

  lemma CheckpointFits(c: Cell)
    requires CandidateSteps.Inv(c) && Usable(c.rows) && InProgress(c)
    ensures FitsRows(c.checkpoint.value.partial, c.rows)
  {
    var k := c.checkpoint.value;
    var s := UpTo(Unexpired(c.rows, k.cutoff), k.cursor);
    if k.partial.sums != [] {
      assert Applied(c.rows, s) != {};
      var t :| t in Applied(c.rows, s);
      assert |c.rows[t].vector| == |k.partial.sums|;
    }
  }

  lemma NextTakeover(s: State, w: Worker, period: nat, finished: bool, reading: nat) returns (step: Step)
    requires Ready(s, w, period) && Foreign(s, w, OwnPartition(w, period)) == 1
    ensures SweepCommits(s, w, period, finished, reading, step)
  {
    var cleanup := CleanupAt(s, OwnPartition(w, period));
    var next := if cleanup.None? then Seek(w.operation, None) else cleanup.value.(operation := w.operation);
    step := Travel(Traversal.MoveCleanup(w, period, 0, 0, next));
  }

  lemma NextSeek(s: State, w: Worker, period: nat, finished: bool, reading: nat) returns (step: Step)
    requires Ready(s, w, period) && Foreign(s, w, OwnPartition(w, period)) == 0 && !Ended(s, w, OwnPartition(w, period))
    requires CleanupAt(s, OwnPartition(w, period)).value.Seek?
    ensures SweepCommits(s, w, period, finished, reading, step)
  {
    var part := PartOf(s, OwnPartition(w, period));
    var cursor := CleanupOf(part).value.cursor;
    assert part.locators.Keys != {};
    var key := FirstExists(part.locators.Keys);
    var found := Locator(key, part.locators[key]);
    assert Traversal.FirstLocator(part.locators, cursor, found, Some(key));
    step := Travel(Traversal.MoveCleanup(w, period, 0, 0, Delete(w.operation, cursor, found, Some(key))));
  }

  lemma NextErase(s: State, w: Worker, period: nat, finished: bool, reading: nat) returns (step: Step)
    requires Ready(s, w, period) && Foreign(s, w, OwnPartition(w, period)) == 0
    requires CleanupAt(s, OwnPartition(w, period)).value.Delete?
    ensures SweepCommits(s, w, period, finished, reading, step)
  {
    var p := OwnPartition(w, period);
    var locator := CleanupAt(s, p).value.locator;
    FenceKnown(s, p);
    if locator.key.CandidateKey? {
      OwnedPair(s, p, locator.key.candidate);
      step := NextErasePair(s, w, period, locator.key.candidate);
    } else {
      OwnedRecords(s, p, locator.key.event);
      step := NextEraseRecords(s, w, period, locator.key.event);
    }
  }

  predicate Deletes(s: State, w: Worker, p: Partition, key: LocatorKey) {
    && CommandLive(s, w) && CleanupAt(s, p).Some? && CleanupAt(s, p).value.Delete?
    && CleanupAt(s, p).value.operation == w.operation && CleanupAt(s, p).value.locator.key == key
    && (key in PartOf(s, p).locators ==> PartOf(s, p).locators[key] == CleanupAt(s, p).value.locator.expiresAt)
  }

  lemma NextErasePair(s: State, w: Worker, period: nat, c: CandidateId) returns (step: Step)
    requires Deletes(s, w, OwnPartition(w, period), CandidateKey(c)) && c in s.cells && s.cells[c].period == period && s.cells[c].strays == map[]
    requires if CandidateKey(c) in PartOf(s, OwnPartition(w, period)).locators
             then PairOwned(s, c, w.account, PartOf(s, OwnPartition(w, period)).locators[CandidateKey(c)])
             else w.account !in s.cells[c].rows
    requires s.cells[c].summary.Some? ==> (s.cells[c].summary.value.phase.Published? <==> s.cells[c].aggregate.Some?)
    ensures Can(s, step) && Erases(step, w, period)
  {
    step := Travel(Traversal.EraseContribution(w, period, 0, 0, 0));
  }

  lemma NextEraseRecords(s: State, w: Worker, period: nat, e: EventId) returns (step: Step)
    requires Deletes(s, w, OwnPartition(w, period), EventKey(e)) && e in s.events
    requires EventKey(e) !in PartOf(s, OwnPartition(w, period)).locators ==> s.events[e] == WithoutRecords(s.events[e])
    ensures Can(s, step) && Erases(step, w, period)
  {
    step := Travel(Traversal.EraseFeature(w, period, 0, 0));
  }

  lemma OwnedPair(s: State, p: Partition, c: CandidateId)
    requires Table.Inv(s) && c in s.cells && s.cells[c].period == p.period && s.cells[c].strays == map[]
    ensures if CandidateKey(c) in PartOf(s, p).locators then PairOwned(s, c, p.token, PartOf(s, p).locators[CandidateKey(c)])
            else p.token !in s.cells[c].rows
    ensures s.cells[c].summary.Some? ==> (s.cells[c].summary.value.phase.Published? <==> s.cells[c].aggregate.Some?)
  {
    assert p == Partition(s.cells[c].period, p.token);
    assert CandidateSteps.Inv(s.cells[c]);
  }

  lemma OwnedRecords(s: State, p: Partition, e: EventId)
    requires Table.Inv(s) && e in s.events && s.events[e].owner == p
    ensures EventKey(e) !in PartOf(s, p).locators ==> s.events[e] == WithoutRecords(s.events[e])
  {
  }

  lemma NextAfterRepair(s: State, w: Worker, period: nat, finished: bool, reading: nat) returns (step: Step)
    requires Ready(s, w, period) && Foreign(s, w, OwnPartition(w, period)) == 0
    requires CleanupAt(s, OwnPartition(w, period)).value.Recompute?
    requires finished || RepairOf(s, OwnPartition(w, period)).None?
             || NothingToRepair(s, CleanupAt(s, OwnPartition(w, period)).value.locator.key.candidate)
    ensures SweepCommits(s, w, period, finished, reading, step)
  {
    var cleanup := CleanupAt(s, OwnPartition(w, period)).value;
    step := Travel(Traversal.MoveCleanup(w, period, 0, 0, Seek(w.operation, cleanup.nextCursor)));
  }

  lemma NextRepair(s: State, w: Worker, c: CandidateId, reading: nat) returns (step: Step)
    requires Table.Inv(s) && CommandLive(s, w) && c in s.cells && Regular(s.cells[c]) && !NothingToRepair(s, c) && reading <= s.clock
    ensures Can(s, step) && Repairs(s, step, w, c, reading)
  {
    var cell := s.cells[c];
    assert CandidateSteps.Inv(cell);
    if cell.summary.None? {
      step := Fix(Repair.DropOrphanCheckpoint(w, c, 0));
    } else if cell.summary.value.phase.Final() {
      step := NextCleanup(s, w, c, reading);
    } else if !InProgress(cell) {
      step := Fix(Repair.RecomputeRestart(w, c, 0, 0, reading));
    } else {
      step := NextPage(s, w, c, reading);
    }
  }

  lemma NextCleanup(s: State, w: Worker, c: CandidateId, reading: nat) returns (step: Step)
    requires Table.Inv(s) && CommandLive(s, w) && c in s.cells && s.cells[c].summary.Some? && s.cells[c].summary.value.phase.Final()
    requires s.cells[c].strays == map[]
    ensures Can(s, step) && Repairs(s, step, w, c, reading)
  {
    var cell := s.cells[c];
    if cell.rows != map[] {
      assert cell.rows.Keys != {};
      var t :| t in cell.rows;
      RowOwned(s, c, t);
      step := NextCleanPair(s, w, c, t, reading);
    } else {
      FinalHasNoCheckpoint(s, c);
      step := NextRetire(s, w, c, reading);
    }
  }

  lemma RowOwned(s: State, c: CandidateId, t: Token)
    requires Table.Inv(s) && c in s.cells && t in s.cells[c].rows && s.cells[c].strays == map[]
    ensures LocatorOwned(s, c, t)
  {
    OwnedPair(s, Partition(s.cells[c].period, t), c);
  }

  lemma FinalHasNoCheckpoint(s: State, c: CandidateId)
    requires Table.Inv(s) && c in s.cells && s.cells[c].summary.Some? && s.cells[c].summary.value.phase.Final()
    ensures s.cells[c].checkpoint.None?
  {
    assert CandidateSteps.Inv(s.cells[c]);
  }

  lemma NextCleanPair(s: State, w: Worker, c: CandidateId, t: Token, reading: nat) returns (step: Step)
    requires CommandLive(s, w) && c in s.cells && s.cells[c].summary.Some? && s.cells[c].summary.value.phase.Final()
    requires t in s.cells[c].rows && LocatorOwned(s, c, t)
    ensures Can(s, step) && Repairs(s, step, w, c, reading)
  {
    step := Fix(Repair.CleanPublished(w, c, 0, t));
  }

  lemma NextRetire(s: State, w: Worker, c: CandidateId, reading: nat) returns (step: Step)
    requires CommandLive(s, w) && c in s.cells && s.cells[c].summary.Some? && s.cells[c].summary.value.phase.Final()
    requires s.cells[c].rows == map[] && s.cells[c].strays == map[] && s.cells[c].checkpoint.None?
    ensures Can(s, step) && Repairs(s, step, w, c, reading)
  {
    step := Fix(Repair.RetirePublished(w, c, 0, 0));
  }

  lemma NextPage(s: State, w: Worker, c: CandidateId, reading: nat) returns (step: Step)
    requires CommandLive(s, w) && c in s.cells && Regular(s.cells[c]) && InProgress(s.cells[c])
    requires CandidateSteps.Inv(s.cells[c])
    requires s.cells[c].summary.value.phase.Open? || s.cells[c].summary.value.phase.Repairing?
    ensures Can(s, step) && Repairs(s, step, w, c, reading)
  {
    var page, last, totals := FoldablePage(s.cells[c]);
    step := if last.Some? then Fix(Repair.RecomputeAdvance(w, c, 0, 0, 0, page)) else Fix(Repair.RecomputeFinish(w, c, 0, 0, 0, page));
    PageEnabled(s, w, c, page, last, totals);
  }

  lemma PageEnabled(s: State, w: Worker, c: CandidateId, page: seq<Token>, last: Option<Token>, totals: Partial)
    requires CommandLive(s, w) && c in s.cells && InProgress(s.cells[c])
    requires s.cells[c].summary.value.phase.Open? || s.cells[c].summary.value.phase.Repairing?
    requires s.cells[c].summary.value.phase.Repairing? ==> s.cells[c].aggregate.None?
    requires var saved := s.cells[c].checkpoint.value;
             && CleanPage(s.cells[c], saved.cursor, page, last, Repair.PAGE_SIZE)
             && FoldPage(saved.partial, s.cells[c].rows, page, |page|, saved.cutoff) == Some(totals)
             && (last.None? ==> totals.contributors == 0 || totals.vectors > 0)
    ensures if last.Some? then Repair.Enabled([s], 0, Repair.RecomputeAdvance(w, c, 0, 0, 0, page))
            else Repair.Enabled([s], 0, Repair.RecomputeFinish(w, c, 0, 0, 0, page))
  {
    assert Repair.RecomputePageSeen([s], 0, w, c, 0, 0, 0, page);
  }

  lemma FoldablePage(cell: Cell) returns (page: seq<Token>, last: Option<Token>, totals: Partial)
    requires CandidateSteps.Inv(cell) && Usable(cell.rows) && InProgress(cell)
    ensures var saved := cell.checkpoint.value;
            && IsPage(cell.rows, saved.cursor, page, last, Repair.PAGE_SIZE)
            && FoldPage(saved.partial, cell.rows, page, |page|, saved.cutoff) == Some(totals)
            && (last.None? ==> totals.contributors == 0 || totals.vectors > 0)
            && (|KeysBehind(cell.rows.Keys, saved.cursor)| < Repair.PAGE_SIZE ==> last.None?)
  {
    var saved := cell.checkpoint.value;
    page, last := PageExists(cell.rows.Keys, saved.cursor, Repair.PAGE_SIZE);
    CheckpointFits(cell);
    FoldUsable(saved.partial, cell.rows, page, |page|, saved.cutoff);
    totals := FoldPage(saved.partial, cell.rows, page, |page|, saved.cutoff).value;
    if last.None? {
      PageExtendsFold(saved, cell.rows, page, None);
      assert Applied(cell.rows, Unexpired(cell.rows, saved.cutoff)) == Unexpired(cell.rows, saved.cutoff);
    }
  }

  lemma NextCommit(s: State, w: Worker, period: nat, finished: bool, reading: nat) returns (step: Step)
    requires Ready(s, w, period) && !Ended(s, w, OwnPartition(w, period)) && reading <= s.clock
    ensures SweepCommits(s, w, period, finished, reading, step)
  {
    var p := OwnPartition(w, period);
    if Foreign(s, w, p) == 1 {
      step := NextTakeover(s, w, period, finished, reading);
    } else if CleanupAt(s, p).value.Seek? {
      step := NextSeek(s, w, period, finished, reading);
    } else if CleanupAt(s, p).value.Delete? {
      step := NextErase(s, w, period, finished, reading);
    } else if finished || RepairOf(s, p).None? || NothingToRepair(s, CleanupAt(s, p).value.locator.key.candidate) {
      step := NextAfterRepair(s, w, period, finished, reading);
    } else {
      assert CandidateSteps.Inv(s.cells[CleanupAt(s, p).value.locator.key.candidate]);
      step := NextRepair(s, w, CleanupAt(s, p).value.locator.key.candidate, reading);
    }
  }

  // ---------------------------------------------------------------- and stays able to

  lemma AloneCoherent(s: State)
    requires Table.Inv(s)
    ensures Coherent([s], 0)
  {
    assert SoundAt([s], 0);
    Protocol.EvolvesReflexive(s);
    assert Later([s], 0, 0);
  }

  lemma RowsOnlyLeave(c: Cell, ch: Change)
    requires Admissible(c, ch) && !ch.Match? && !ch.Repeat? && !ch.Appear? && Regular(c)
    ensures Regular(Next(c, ch)) && Shrinks(c.rows, Next(c, ch).rows)
  {
  }

  lemma SweepWrites(s: State, w: Worker, period: nat, finished: bool, reading: nat, step: Step)
    requires SweepCommits(s, w, period, finished, reading, step)
    ensures var x := WritesOf(s, step);
            x.ledger.None? && x.clock.None? && !x.cell.Create? && (x.cell.Modify? ==> !x.cell.change.Match? && !x.cell.change.Repeat? && !x.cell.change.Appear?)
  {
  }

  lemma UsableKept(s: State, x: Transaction, c: CandidateId)
    requires Sound(s, x) && !x.cell.Create? && (x.cell.Modify? ==> !x.cell.change.Match? && !x.cell.change.Repeat? && !x.cell.change.Appear?)
    requires c in Apply(s, x).cells && forall c :: c in s.cells ==> Regular(s.cells[c])
    ensures Regular(Apply(s, x).cells[c])
    ensures c in s.cells && Apply(s, x).cells[c].rows.Keys <= s.cells[c].rows.Keys
  {
    if x.cell.Modify? && x.cell.candidate == c { RowsOnlyLeave(s.cells[c], x.cell.change); }
  }

  lemma StillFenced(s: State, x: Transaction, p: Partition)
    requires Sound(s, x) && PartOf(s, p).tombstone.Some?
    ensures PartOf(Apply(s, x), p).tombstone.Some?
  {
    PartAfter(s, x, p);
  }

  lemma StillSwept(s: State, w: Worker, period: nat, finished: bool, reading: nat, step: Step)
    requires Table.Inv(s) && SweepCommits(s, w, period, finished, reading, step) && Sound(s, WritesOf(s, step))
    requires SweptPart(PartOf(s, OwnPartition(w, period)))
    ensures SweptPart(PartOf(Apply(s, WritesOf(s, step)), OwnPartition(w, period)))
  {
    AloneCoherent(s);
    if step.Travel? {
      TraversalSwept([s], 0, step.traverse, OwnPartition(w, period));
    } else {
      FixLeavesFence(s, step);
      SweptStays(s, WritesOf(s, step), OwnPartition(w, period));
    }
  }

  lemma FixLeavesFence(s: State, step: Step)
    requires Can(s, step) && step.Fix?
    ensures WritesOf(s, step).fence.None?
  {
  }

  lemma SweepSound(s: State, step: Step)
    requires Table.Inv(s) && Can(s, step)
    ensures Sound(s, WritesOf(s, step)) && Table.Inv(Apply(s, WritesOf(s, step)))
  {
    AloneCoherent(s);
    match step {
      case Travel(x) => Traversal.StepSound([s], 0, x);
      case Fix(x) => Repair.StepSound([s], 0, x);
    }
    Table.InvKept(s, WritesOf(s, step));
  }

  lemma ReadyKept(s: State, w: Worker, period: nat, finished: bool, reading: nat, step: Step, most: nat)
    requires RowsWithin(s, most) && Ready(s, w, period) && SweepCommits(s, w, period, finished, reading, step) && Sound(s, WritesOf(s, step))
    requires Table.Inv(Apply(s, WritesOf(s, step)))
    ensures Ready(Apply(s, WritesOf(s, step)), w, period) && RowsWithin(Apply(s, WritesOf(s, step)), most)
  {
    var x := WritesOf(s, step);
    SweepWrites(s, w, period, finished, reading, step);
    StillSwept(s, w, period, finished, reading, step);
    StillFenced(s, x, OwnPartition(w, period));
    forall c | c in Apply(s, x).cells ensures Regular(Apply(s, x).cells[c]) && |Apply(s, x).cells[c].rows.Keys| <= most {
      UsableKept(s, x, c);
      SubsetSize(Apply(s, x).cells[c].rows.Keys, s.cells[c].rows.Keys);
    }
  }

  // ---------------------------------------------------------------- turns

  /** One call of the sweeper: it reads the clock once, when it begins, and remembers whether it has just
      finished a recomputation. */
  datatype Call = Call(reading: nat, finished: bool)

  /** The sweeper between two commits; without a call it is about to begin one. */
  datatype Sweeper = Sweeper(table: State, call: Option<Call>)

  /** One commit at `time`, in a call that read the clock as `reading`. The call is over afterwards if
      it was the last commit of the call or the sweeper crashed. */
  datatype Turn = Turn(step: Step, reading: nat, time: nat, over: bool)

  predicate Finished(a: Sweeper) { a.call.Some? && a.call.value.finished }

  function At(s: State, time: nat): State { s.(clock := time) }

  predicate Reads(a: Sweeper, turn: Turn) {
    && a.table.clock <= turn.time
    && match a.call case Some(call) => turn.reading == call.reading case None => a.table.clock <= turn.reading <= turn.time
  }

  ghost predicate Takes(a: Sweeper, turn: Turn, b: Sweeper, w: Worker, period: nat) {
    && Reads(a, turn)
    && SweepCommits(At(a.table, turn.time), w, period, Finished(a), turn.reading, turn.step)
    && Applicable(At(a.table, turn.time), WritesOf(At(a.table, turn.time), turn.step).cell)
    && b == Sweeper(Apply(At(a.table, turn.time), WritesOf(At(a.table, turn.time), turn.step)),
                    if turn.over then None else Some(Call(turn.reading, Remembers(turn.step))))
  }

  /** A crash right after the recomputation of a candidate that stays open was finished. */
  predicate Setback(turn: Turn, b: Sweeper) {
    && turn.over && Remembers(turn.step)
    && turn.step.mend.candidate in b.table.cells && b.table.cells[turn.step.mend.candidate].summary.Some?
    && b.table.cells[turn.step.mend.candidate].summary.value.phase.Open?
  }

  ghost function Taking(w: Worker, period: nat): (Sweeper, Turn, Sweeper) -> bool {
    (a: Sweeper, turn: Turn, b: Sweeper) => Takes(a, turn, b, w, period)
  }

  const SETBACK := (turn: Turn, b: Sweeper) => Setback(turn, b)

  lemma LaterReady(s: State, time: nat, w: Worker, period: nat, most: nat)
    requires Ready(s, w, period) && RowsWithin(s, most) && s.clock <= time
    ensures Ready(At(s, time), w, period) && RowsWithin(At(s, time), most)
  {
    LaterInv(s, time);
  }

  lemma LaterInv(s: State, time: nat)
    requires Table.Inv(s) && s.clock <= time
    ensures Table.Inv(At(s, time))
  {
    var x := NO_WRITES.(clock := Some(time));
    assert Apply(s, x) == At(s, time);
    Table.InvKept(s, x);
  }

  predicate Timed(a: Sweeper) { a.call.Some? ==> a.call.value.reading <= a.table.clock }

  lemma TakeKeeps(a: Sweeper, turn: Turn, b: Sweeper, w: Worker, period: nat, most: nat)
    requires Ready(a.table, w, period) && RowsWithin(a.table, most) && Timed(a) && Takes(a, turn, b, w, period)
    ensures Ready(At(a.table, turn.time), w, period) && RowsWithin(At(a.table, turn.time), most)
    ensures Sound(At(a.table, turn.time), WritesOf(At(a.table, turn.time), turn.step))
    ensures Ready(b.table, w, period) && RowsWithin(b.table, most) && Timed(b) && b.table.clock == turn.time
  {
    var s := At(a.table, turn.time);
    LaterReady(a.table, turn.time, w, period, most);
    SweepSound(s, turn.step);
    ReadyKept(s, w, period, Finished(a), turn.reading, turn.step, most);
    SweepWrites(s, w, period, Finished(a), turn.reading, turn.step);
  }

  // ---------------------------------------------------------------- the end of a pass is stable

  lemma EndedStays(a: Sweeper, turn: Turn, b: Sweeper, w: Worker, period: nat)
    requires Ended(a.table, w, OwnPartition(w, period)) && Takes(a, turn, b, w, period)
    requires Sound(At(a.table, turn.time), WritesOf(At(a.table, turn.time), turn.step))
    ensures Ended(b.table, w, OwnPartition(w, period)) && !Setback(turn, b)
  {
    PartAfter(At(a.table, turn.time), WritesOf(At(a.table, turn.time), turn.step), OwnPartition(w, period));
  }

  lemma EndedErased(s: State, w: Worker, p: Partition)
    requires Table.Inv(s) && Ended(s, w, p)
    ensures Erased(s, p)
  {
    InvLocated(s);
    NoLocatorsErased(s, p);
  }

  // ---------------------------------------------------------------- what a commit costs

  function Position(left: nat, foreign: nat, rank: nat, stage: nat): nat { ((left * 2 + foreign) * 5 + rank) * 5 + stage }

  function Weight(position: nat, toRead: nat, most: nat): nat { position * (most + 1) + toRead }

  /** Every commit that is not a setback lowers it; the clock does not matter. */
  function WeightIn(s: State, finished: bool, w: Worker, period: nat, most: nat): nat {
    var p := OwnPartition(w, period);
    Weight(Position(Left(s, p), Foreign(s, w, p), Rank(s, p, finished), Stage(s, p)), ToRead(s, p), most)
  }

  function WeightOf(a: Sweeper, w: Worker, period: nat, most: nat): nat { WeightIn(a.table, Finished(a), w, period, most) }

  lemma WeightFalls(a0: nat, a1: nat, a2: nat, a3: nat, a4: nat, b0: nat, b1: nat, b2: nat, b3: nat, b4: nat, most: nat)
    requires Less5(a0, a1, a2, a3, a4, b0, b1, b2, b3, b4) && a1 <= 1 && a2 <= 4 && a3 <= 4 && a4 <= most
    ensures Weight(Position(a0, a1, a2, a3), a4, most) + 1 <= Weight(Position(b0, b1, b2, b3), b4, most)
  {
    var x, y := Position(a0, a1, a2, a3), Position(b0, b1, b2, b3);
    if x < y {
      Scaled(x + 1, y, most + 1);
      Scaled(x, x, most + 1);
    } else {
      assert x == y;
    }
  }

  /** A setback takes the repair back by one stage. */
  lemma WeightRises(a0: nat, b0: nat, foreign: nat, rank: nat, stage: nat, a4: nat, b4: nat, most: nat)
    requires a0 <= b0 && a4 <= most
    ensures Weight(Position(a0, foreign, rank, stage + 1), a4, most) + 1 <= Weight(Position(b0, foreign, rank, stage), b4, most) + 2 * (most + 1)
  {
    var x, y := Position(a0, foreign, rank, stage + 1), Position(b0, foreign, rank, stage);
    assert x <= y + 1;
    Scaled(x, y + 1, most + 1);
    Scaled(y, y, most + 1);
  }

  lemma ToReadWithin(s: State, p: Partition, most: nat)
    requires RowsWithin(s, most)
    ensures ToRead(s, p) <= most && Stage(s, p) <= 4
  {
    if RepairOf(s, p).Some? {
      var c := RepairOf(s, p).value;
      if InProgress(c) { SubsetSize(KeysBehind(c.rows.Keys, c.checkpoint.value.cursor), c.rows.Keys); }
      assert |c.rows| == |c.rows.Keys|;
    }
  }

  lemma FallsBy(s: State, finished: bool, n: State, after: bool, w: Worker, period: nat, most: nat)
    requires Decreases(s, finished, n, after, w, period)
    requires ToRead(n, OwnPartition(w, period)) <= most && Stage(n, OwnPartition(w, period)) <= 4
    ensures WeightIn(n, after, w, period, most) + 1 <= WeightIn(s, finished, w, period, most)
  {
    var p := OwnPartition(w, period);
    WeightFalls(Left(n, p), Foreign(n, w, p), Rank(n, p, after), Stage(n, p), ToRead(n, p),
                Left(s, p), Foreign(s, w, p), Rank(s, p, finished), Stage(s, p), ToRead(s, p), most);
  }

  /** A finished recomputation leaves the traversal's candidate open, frozen or gone. */
  lemma FinishStages(s: State, w: Worker, period: nat, c: CandidateId, reading: nat, step: Step)
    requires Can(s, step) && Repairs(s, step, w, c, reading) && Remembers(step)
    requires CleanupAt(s, OwnPartition(w, period)).Some? && CleanupAt(s, OwnPartition(w, period)).value.Recompute?
    requires CleanupAt(s, OwnPartition(w, period)).value.locator.key == CandidateKey(c)
    requires CleanupAt(s, OwnPartition(w, period)).value.operation == w.operation
    requires Sound(s, WritesOf(s, step))
    ensures var n := Apply(s, WritesOf(s, step));
            && Left(n, OwnPartition(w, period)) <= Left(s, OwnPartition(w, period))
            && Foreign(n, w, OwnPartition(w, period)) == Foreign(s, w, OwnPartition(w, period))
            && Rank(n, OwnPartition(w, period), false) == Rank(s, OwnPartition(w, period), false)
            && Stage(s, OwnPartition(w, period)) == 3
            && c in n.cells
            && Stage(n, OwnPartition(w, period)) == (if n.cells[c].summary.Some? && n.cells[c].summary.value.phase.Open? then 4 else 0)
  {
    RepairLeavesTraversal(s, w, OwnPartition(w, period), c, reading, step);
    RepairWrites(s, w, c, reading, step);
  }

  lemma CrashCosts(s: State, w: Worker, period: nat, finished: bool, reading: nat, step: Step, most: nat)
    requires SweepCommits(s, w, period, finished, reading, step) && Remembers(step) && Sound(s, WritesOf(s, step))
    requires ToRead(Apply(s, WritesOf(s, step)), OwnPartition(w, period)) <= most
    ensures var n := Apply(s, WritesOf(s, step));
            && step.mend.candidate in n.cells
            && WeightIn(n, false, w, period, most) + 1 <=
               WeightIn(s, finished, w, period, most)
               + (if n.cells[step.mend.candidate].summary.Some? && n.cells[step.mend.candidate].summary.value.phase.Open? then 2 * (most + 1) else 0)
  {
    var p, c, n := OwnPartition(w, period), step.mend.candidate, Apply(s, WritesOf(s, step));
    FinishStages(s, w, period, c, reading, step);
    if n.cells[c].summary.Some? && n.cells[c].summary.value.phase.Open? {
      WeightRises(Left(n, p), Left(s, p), Foreign(s, w, p), Rank(s, p, false), 3, ToRead(n, p), ToRead(s, p), most);
    } else {
      FallsBy(s, finished, n, false, w, period, most);
    }
  }

  lemma ClockIrrelevant(s: State, time: nat, finished: bool, w: Worker, period: nat, most: nat)
    ensures WeightIn(At(s, time), finished, w, period, most) == WeightIn(s, finished, w, period, most)
  {
  }

  /** A commit lowers the weight wherever the sweeper crashes, but for a setback, which raises it by less
      than a fixed amount. */
  lemma TurnCosts(a: Sweeper, turn: Turn, b: Sweeper, w: Worker, period: nat, most: nat)
    requires Ready(a.table, w, period) && RowsWithin(a.table, most) && Timed(a) && Takes(a, turn, b, w, period)
    requires !Ended(a.table, w, OwnPartition(w, period))
    ensures WeightOf(b, w, period, most) + 1 <= WeightOf(a, w, period, most) + (if Setback(turn, b) then 2 * (most + 1) else 0)
  {
    var s := At(a.table, turn.time);
    TakeKeeps(a, turn, b, w, period, most);
    ToReadWithin(b.table, OwnPartition(w, period), most);
    ClockIrrelevant(a.table, turn.time, Finished(a), w, period, most);
    if turn.over && Remembers(turn.step) {
      CrashCosts(s, w, period, Finished(a), turn.reading, turn.step, most);
    } else {
      SweepDecreases(s, w, period, Finished(a), turn.reading, turn.step);
      FallsBy(s, Finished(a), b.table, Remembers(turn.step), w, period, most);
    }
  }

  // ---------------------------------------------------------------- every run

  ghost function Fit(w: Worker, period: nat, most: nat): Sweeper -> bool {
    (a: Sweeper) => Ready(a.table, w, period) && RowsWithin(a.table, most) && Timed(a)
  }

  ghost function AtEnd(w: Worker, period: nat): Sweeper -> bool {
    (a: Sweeper) => Ended(a.table, w, OwnPartition(w, period))
  }

  ghost function Weighing(w: Worker, period: nat, most: nat): Sweeper -> nat {
    (a: Sweeper) => WeightOf(a, w, period, most)
  }

  lemma SweeperLawful(w: Worker, period: nat, most: nat)
    ensures Lawful(Taking(w, period), SETBACK, Fit(w, period, most), AtEnd(w, period), Weighing(w, period, most), 2 * (most + 1))
  {
    var takes, fit, ended, weight, penalty := Taking(w, period), Fit(w, period, most), AtEnd(w, period), Weighing(w, period, most), 2 * (most + 1);
    var setback := SETBACK;
    forall a, turn, b ensures Law(takes, setback, fit, ended, weight, penalty, a, turn, b) {
      if fit(a) && takes(a, turn, b) {
        TakeKeeps(a, turn, b, w, period, most);
        if ended(a) { EndedStays(a, turn, b, w, period); } else { TurnCosts(a, turn, b, w, period, most); }
      }
    }
  }

  /** Whatever the crashes and the clock, every run that has made more commits than its first state weighs,
      and `2 * (most + 1)` for each of its setbacks, has reached the end of the pass for good, and nothing
      of the contributor's period is left. Crashes anywhere else cost nothing. */
  lemma SweepReachesPassEnd(run: nat -> Sweeper, turns: nat -> Turn, i: nat, n: nat, w: Worker, period: nat, most: nat)
    requires i <= n && Follows(Taking(w, period), run, turns, i, n)
    requires Ready(run(i).table, w, period) && RowsWithin(run(i).table, most) && Timed(run(i))
    requires n - i > WeightOf(run(i), w, period, most) + Setbacks(SETBACK, run, turns, i, n) * (2 * (most + 1))
    ensures Ended(run(n).table, w, OwnPartition(w, period)) && Erased(run(n).table, OwnPartition(w, period))
  {
    SweeperLawful(w, period, most);
    RunCosts(Taking(w, period), SETBACK, Fit(w, period, most), AtEnd(w, period), Weighing(w, period, most), 2 * (most + 1), run, turns, i, n);
    assert AtEnd(w, period)(run(n)) && Fit(w, period, most)(run(n));
    EndedErased(run(n).table, w, OwnPartition(w, period));
  }

  /** A sweep that goes on for ever reaches the end of its pass if and only if from some commit on it has
      no setback. */
  lemma EndsIffSetbacksCease(run: nat -> Sweeper, turns: nat -> Turn, w: Worker, period: nat)
    requires Forever(Taking(w, period), run, turns) && Ready(run(0).table, w, period) && Timed(run(0))
    ensures Reaches(AtEnd(w, period), run) <==> exists n: nat :: Ceases(SETBACK, run, turns, n)
  {
    var most := MostRows(run(0).table);
    SweeperLawful(w, period, most);
    assert Fit(w, period, most)(run(0));
    EndsIffCeases(Taking(w, period), SETBACK, Fit(w, period, most), AtEnd(w, period), Weighing(w, period, most), 2 * (most + 1), run, turns);
  }

  /** A run that has not reached the end goes on, whenever the next commit is made and whether or not the
      sweeper crashes after it. */
  lemma NeverStuck(a: Sweeper, w: Worker, period: nat, time: nat, over: bool) returns (turn: Turn, b: Sweeper)
    requires Ready(a.table, w, period) && Timed(a) && a.table.clock <= time && !Ended(a.table, w, OwnPartition(w, period))
    ensures turn.time == time && turn.over == over && Takes(a, turn, b, w, period) && Ready(b.table, w, period)
  {
    var most := MostRows(a.table);
    var reading := if a.call.Some? then a.call.value.reading else time;
    LaterReady(a.table, time, w, period, most);
    var step := NextCommit(At(a.table, time), w, period, Finished(a), reading);
    turn := Turn(step, reading, time, over);
    b := TurnTaken(a, turn, w, period, most);
  }

  lemma TurnTaken(a: Sweeper, turn: Turn, w: Worker, period: nat, most: nat) returns (b: Sweeper)
    requires Ready(a.table, w, period) && RowsWithin(a.table, most) && Timed(a) && Reads(a, turn)
    requires SweepCommits(At(a.table, turn.time), w, period, Finished(a), turn.reading, turn.step)
    ensures Takes(a, turn, b, w, period) && Ready(b.table, w, period) && RowsWithin(b.table, most) && Timed(b)
  {
    var s := At(a.table, turn.time);
    LaterReady(a.table, turn.time, w, period, most);
    SweepSound(s, turn.step);
    b := Sweeper(Apply(s, WritesOf(s, turn.step)), if turn.over then None else Some(Call(turn.reading, Remembers(turn.step))));
    TakeKeeps(a, turn, b, w, period, most);
  }

  lemma MostRows(s: State) returns (most: nat)
    ensures RowsWithin(s, most)
  {
    most := MostRowsOf(s, s.cells.Keys);
  }

  lemma {:induction false} MostRowsOf(s: State, among: set<CandidateId>) returns (most: nat)
    requires among <= s.cells.Keys
    ensures forall c :: c in among ==> |s.cells[c].rows.Keys| <= most
    decreases among
  {
    most := 0;
    if among != {} {
      var c :| c in among;
      most := MostRowsOf(s, among - {c});
      if |s.cells[c].rows.Keys| > most { most := |s.cells[c].rows.Keys|; }
    }
  }
}
