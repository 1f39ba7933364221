/** The sweeper's turns are the protocol's own steps: time passes, then the step is committed. */
module SweepRuns {
  import opened Basics
  import opened Candidate
  import opened CandidateSteps
  import opened Table
  import opened Observations
  import opened Protocol
  import opened Store
  import opened RankedRuns
  import opened Fences
  import opened Snapshot
  import opened SweepTermination
  import Repair
  import Traversal
  import Surroundings

  type History = Observations.History
  type Step = Protocol.Step

  /** The same step with all its reads at moment `k`. */
  function TravelAt(x: Traversal.TraversalStep, k: nat): Traversal.TraversalStep {
    match x
    case EnsureFence(w, period, days) => x
    case MoveCleanup(w, period, _, _, next) => Traversal.MoveCleanup(w, period, k, k, next)
    case MovePeriods(w, period, _, minimum) => Traversal.MovePeriods(w, period, k, minimum)
    case EraseContribution(w, period, _, _, _) => Traversal.EraseContribution(w, period, k, k, k)
    case EraseFeature(w, period, _, _) => Traversal.EraseFeature(w, period, k, k)
  }

  function FixAt(x: Repair.RepairStep, k: nat): Repair.RepairStep {
    match x
    case RecomputeRestart(w, c, _, _, now) => Repair.RecomputeRestart(w, c, k, k, now)
    case RecomputeAdvance(w, c, _, _, _, page) => Repair.RecomputeAdvance(w, c, k, k, k, page)
    case RecomputeFinish(w, c, _, _, _, page) => Repair.RecomputeFinish(w, c, k, k, k, page)
    case DropOrphanCheckpoint(w, c, _) => Repair.DropOrphanCheckpoint(w, c, k)
    case CleanPublished(w, c, _, t) => Repair.CleanPublished(w, c, k, t)
    case RetirePublished(w, c, _, _) => Repair.RetirePublished(w, c, k, k)
  }

  /** Only the clock has gone on since moment `k - 1`, at which everything was read. */
  predicate Ticked(h: History, k: nat) { 0 < k < |h| && h[k] == At(h[k - 1], h[k].clock) }

  lemma TravelSame(h: History, k: nat, x: Traversal.TraversalStep)
    requires Ticked(h, k) && Traversal.Guarded([h[k]], 0, x)
    requires x.MoveCleanup? ==> Traversal.Earned(h, k - 1, k - 1, OwnPartition(x.worker, x.period), x.worker.operation)
    ensures Traversal.Enabled(h, k, TravelAt(x, k - 1)) && Traversal.Writes(h, k, TravelAt(x, k - 1)) == Traversal.Writes([h[k]], 0, x)
  {
  }

  lemma FixSame(h: History, k: nat, x: Repair.RepairStep)
    requires k < |h| && Repair.Enabled([h[k]], 0, x)
    ensures Repair.Enabled(h, k, FixAt(x, k)) && Repair.Writes(h, k, FixAt(x, k)) == Repair.Writes([h[k]], 0, x)
  {
  }

  function StepAt(step: SweepTermination.Step, k: nat): Step
    requires k > 0
  {
    match step
    case Travel(x) => Traverse(TravelAt(x, k - 1))
    case Fix(x) => Mend(FixAt(x, k))
  }

  /** Where the sweeper goes on to its next locator, it has earned that. */
  ghost predicate EarnedIfMove(h: History, k: nat, step: SweepTermination.Step)
    requires 0 < k < |h| && Can(h[k], step)
  {
    step.Travel? && step.traverse.MoveCleanup? && FenceSeen(h, k - 1, OwnPartition(step.traverse.worker, step.traverse.period)) ==>
      Traversal.Earned(h, k - 1, k - 1, OwnPartition(step.traverse.worker, step.traverse.period), step.traverse.worker.operation)
  }

  lemma StepSame(h: History, k: nat, step: SweepTermination.Step)
    requires Ticked(h, k) && Can(h[k], step) && EarnedIfMove(h, k, step)
    ensures Protocol.Enabled(h, k, StepAt(step, k)) && Protocol.Writes(h, k, StepAt(step, k)) == WritesOf(h[k], step)
  {
    match step
    case Travel(x) => TravelSame(h, k, x);
    case Fix(x) => FixSame(h, k, x);
  }

  lemma TickExtends(h: History, steps: seq<Step>, time: nat) returns (h': History, steps': seq<Step>)
    requires Run(h, steps) && Last(h).clock <= time
    ensures Run(h', steps') && Last(h') == At(Last(h), time) && h <= h' && |h'| == |h| + 1
  {
    h', steps' := Extend(h, steps, Surround(Surroundings.Tick(time)));
  }

  // ---------------------------------------------------------------- a finished recomputation is remembered rightly

  /** What the sweeper remembers is true: it has just finished the recomputation that its traversal is at. */
  ghost predicate Remembered(h: History, a: Sweeper, w: Worker, period: nat)
    requires h != []
  {
    Finished(a) && FenceSeen(h, |h| - 1, OwnPartition(w, period)) ==>
      Traversal.Earned(h, |h| - 1, |h| - 1, OwnPartition(w, period), w.operation)
  }

  lemma NothingEarns(h: History, steps: seq<Step>, k: nat, w: Worker, period: nat)
    requires Run(h, steps) && k < |h| && FenceSeen(h, k, OwnPartition(w, period))
    requires match CleanupAt(h[k], OwnPartition(w, period))
             case Some(Recompute(_, _, locator, _)) => locator.key.CandidateKey? ==> NothingToRepair(h[k], locator.key.candidate)
             case _ => true
    ensures Traversal.Earned(h, k, k, OwnPartition(w, period), w.operation)
  {
    RunInv(h, steps, k);
    match CleanupAt(h[k], OwnPartition(w, period))
    case Some(Recompute(_, _, locator, _)) =>
      SweepWorker.FenceKnown(h[k], OwnPartition(w, period));
      if locator.key.CandidateKey? { assert CandidateSteps.Inv(h[k].cells[locator.key.candidate]); }
    case _ =>
  }

  lemma MoveEarned(h: History, steps: seq<Step>, a: Sweeper, turn: Turn, w: Worker, period: nat)
    requires Run(h, steps) && Last(h) == a.table && Remembered(h, a, w, period) && Moves(turn.step, w, period)
    requires SweepCommits(At(a.table, turn.time), w, period, Finished(a), turn.reading, turn.step)
    requires FenceSeen(h, |h| - 1, OwnPartition(w, period))
    ensures Traversal.Earned(h, |h| - 1, |h| - 1, OwnPartition(w, period), w.operation)
  {
    if CleanupAt(a.table, OwnPartition(w, period)).Some? && CleanupAt(a.table, OwnPartition(w, period)).value.operation == w.operation && !Finished(a) {
      NothingEarns(h, steps, |h| - 1, w, period);
    }
  }

  lemma FinishRemembered(h: History, steps: seq<Step>, w: Worker, period: nat, x: Repair.RepairStep)
    requires Run(h, steps) && steps != [] && steps[|steps| - 1] == Mend(x) && x.RecomputeFinish?
    requires match CleanupAt(Last(h), OwnPartition(w, period))
             case Some(Recompute(_, _, locator, _)) => locator.key.CandidateKey? ==> locator.key.candidate == x.candidate
             case _ => true
    requires FenceSeen(h, |h| - 1, OwnPartition(w, period))
    ensures Traversal.Earned(h, |h| - 1, |h| - 1, OwnPartition(w, period), w.operation)
  {
    RecomputationIsSnapshot(h, steps, |steps| - 1, x.worker, x.candidate, x.r, x.q, x.u, x.page);
    FinishedRepairs(h, |h| - 1, x.candidate);
  }

  /** A repair leaves the traversal at the candidate it repairs. */
  lemma FixStaysThere(s: State, w: Worker, period: nat, finished: bool, reading: nat, step: SweepTermination.Step)
    requires SweepCommits(s, w, period, finished, reading, step) && step.Fix? && Sound(s, WritesOf(s, step))
    ensures match CleanupAt(Apply(s, WritesOf(s, step)), OwnPartition(w, period))
            case Some(Recompute(_, _, locator, _)) => locator.key == CandidateKey(step.mend.candidate)
            case _ => false
  {
    var p := OwnPartition(w, period);
    RepairLeavesTraversal(s, w, p, CleanupAt(s, p).value.locator.key.candidate, reading, step);
  }

  lemma TurnRemembered(h: History, steps: seq<Step>, s: State, k: nat, w: Worker, period: nat, finished: bool, reading: nat, step: SweepTermination.Step)
    requires Run(h, steps) && steps != [] && SweepCommits(s, w, period, finished, reading, step) && Sound(s, WritesOf(s, step))
    requires Remembers(step) && steps[|steps| - 1] == Mend(FixAt(step.mend, k)) && Last(h) == Apply(s, WritesOf(s, step))
    ensures FenceSeen(h, |h| - 1, OwnPartition(w, period)) ==>
              Traversal.Earned(h, |h| - 1, |h| - 1, OwnPartition(w, period), w.operation)
  {
    FixStaysThere(s, w, period, finished, reading, step);
    if FenceSeen(h, |h| - 1, OwnPartition(w, period)) { FinishRemembered(h, steps, w, period, FixAt(step.mend, k)); }
  }

  lemma TurnCommits(h: History, steps: seq<Step>, step: SweepTermination.Step) returns (h': History, steps': seq<Step>)
    requires Run(h, steps) && Ticked(h, |h| - 1) && Can(Last(h), step) && EarnedIfMove(h, |h| - 1, step)
    ensures Run(h', steps') && Sound(Last(h), WritesOf(Last(h), step)) && Last(h') == Apply(Last(h), WritesOf(Last(h), step))
    ensures steps' != [] && steps'[|steps'| - 1] == StepAt(step, |h| - 1)
  {
    RunInv(h, steps, |h| - 1);
    SweepSound(Last(h), step);
    StepSame(h, |h| - 1, step);
    h', steps' := Extend(h, steps, StepAt(step, |h| - 1));
  }

  lemma MoveStillEarned(h: History, h': History, steps: seq<Step>, a: Sweeper, turn: Turn, w: Worker, period: nat)
    requires Run(h, steps) && Last(h) == a.table && Remembered(h, a, w, period)
    requires SweepCommits(At(a.table, turn.time), w, period, Finished(a), turn.reading, turn.step)
    requires |h'| == |h| + 1 && h <= h' && Last(h') == At(a.table, turn.time)
    ensures EarnedIfMove(h', |h|, turn.step)
  {
    if Moves(turn.step, w, period) && FenceSeen(h, |h| - 1, OwnPartition(w, period)) { MoveEarned(h, steps, a, turn, w, period); }
  }

  /** One turn is two steps of a run: time passes, and the sweeper commits. */
  lemma TurnExtends(h: History, steps: seq<Step>, a: Sweeper, turn: Turn, b: Sweeper, w: Worker, period: nat) returns (h': History, steps': seq<Step>)
    requires Run(h, steps) && Last(h) == a.table && Takes(a, turn, b, w, period) && Remembered(h, a, w, period)
    ensures Run(h', steps') && Last(h') == b.table && Remembered(h', b, w, period)
  {
    var ticked, until := TickExtends(h, steps, turn.time);
    MoveStillEarned(h, ticked, steps, a, turn, w, period);
    h', steps' := TurnCommits(ticked, until, turn.step);
    if Finished(b) { TurnRemembered(h', steps', Last(ticked), |h|, w, period, Finished(a), turn.reading, turn.step); }
  }

  /** Every state of a sweep that starts in a reachable state is reachable; what the sweeper remembers at its
      start must have happened. */
  lemma {:induction false} SweepIsRun(h: History, steps: seq<Step>, run: nat -> Sweeper, turns: nat -> Turn, n: nat, w: Worker, period: nat)
      returns (h': History, steps': seq<Step>)
    requires Run(h, steps) && Last(h) == run(0).table && Follows(Taking(w, period), run, turns, 0, n) && Remembered(h, run(0), w, period)
    ensures Run(h', steps') && Last(h') == run(n).table && Remembered(h', run(n), w, period)
  {
    if n == 0 {
      h', steps' := h, steps;
    } else {
      h', steps' := SweepIsRun(h, steps, run, turns, n - 1, w, period);
      assert TakesAt(Taking(w, period), run, turns, n - 1);
      h', steps' := TurnExtends(h', steps', run(n - 1), turns(n - 1), run(n), w, period);
    }
  }
}
