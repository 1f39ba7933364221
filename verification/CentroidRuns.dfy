/** The centroid along a run: between two recomputations it is the one that joining the candidate's new
    contributors one by one gives, whatever else happens to the candidate. */
module CentroidRuns {
  import opened Basics
  import opened Rounding
  import opened Candidate
  import opened CandidateSteps
  import opened Table
  import opened Observations
  import opened Protocol
  import opened Centroid

  type History = Observations.History
  type Step = Protocol.Step

  /** A centroid, and the number of contributors it is the mean of. */
  datatype Mean = Mean(centroid: seq<real>, contributors: nat)

  const NOBODY := Mean([], 0)

  function MeanOf(s: State, c: CandidateId): Option<Mean> {
    if c in s.cells && s.cells[c].summary.Some?
    then Some(Mean(s.cells[c].summary.value.centroid, s.cells[c].summary.value.contributors))
    else None
  }

  function MeanOrNobody(s: State, c: CandidateId): Mean {
    match MeanOf(s, c) case None => NOBODY case Some(m) => m
  }

  function JoinedBy(m: Mean, vector: seq<real>): Mean {
    Mean(UpdatedCentroid(m.centroid, m.contributors, vector), m.contributors + 1)
  }

  function JoinedByAll(m: Mean, vectors: seq<seq<real>>): Mean {
    if vectors == [] then m else JoinedBy(JoinedByAll(m, vectors[..|vectors| - 1]), vectors[|vectors| - 1])
  }

  /** The vector a step adds to the candidate. */
  function Added(step: Step, c: CandidateId): Option<seq<real>> {
    match step
    case Cluster(NewCandidate(_, _, candidate, _, row, _, _)) => if candidate == c then Some(row.vector) else None
    case Cluster(JoinCandidate(_, _, _, candidate, row, _, _)) => if candidate == c then Some(row.vector) else None
    case _ => None
  }

  predicate Recomputes(step: Step, c: CandidateId) {
    step.Mend? && step.mend.RecomputeFinish? && step.mend.candidate == c
  }

  /** The vectors added by steps `i` to `k`. */
  function AddedIn(steps: seq<Step>, i: nat, k: nat, c: CandidateId): seq<seq<real>>
    requires k <= |steps|
    decreases k
  {
    if k <= i then []
    else AddedIn(steps, i, k - 1, c) + (if Added(steps[k - 1], c).Some? then [Added(steps[k - 1], c).value] else [])
  }

  ghost predicate NotRecomputed(steps: seq<Step>, i: nat, k: nat, c: CandidateId) {
    forall j :: i <= j < k && j < |steps| ==> !Recomputes(steps[j], c)
  }

  /** What one change does to the mean. */
  lemma ChangeMean(cell: Cell, ch: Change)
    requires Admissible(cell, ch) && !ch.Finish? && Next(cell, ch).summary.Some?
    ensures cell.summary.Some?
    ensures var a, b := cell.summary.value, Next(cell, ch).summary.value;
            Mean(b.centroid, b.contributors) ==
              if ch.Match? then JoinedBy(Mean(a.centroid, a.contributors), ch.row.vector) else Mean(a.centroid, a.contributors)
  {
  }

  /** Which steps change the mean. */
  lemma StepChange(h: History, k: nat, step: Step, x: Transaction, c: CandidateId)
    requires k < |h| && Protocol.Enabled(h, k, step) && x == Protocol.Writes(h, k, step) && !Recomputes(step, c)
    ensures x.cell.Modify? && x.cell.candidate == c ==>
              !x.cell.change.Finish? && Added(step, c) == (if x.cell.change.Match? then Some(x.cell.change.row.vector) else None)
    ensures x.cell.Create? && x.cell.candidate == c ==>
              x.cell.cell.summary.Some? && Added(step, c) == Some(x.cell.cell.summary.value.centroid) && x.cell.cell.summary.value.contributors == 1
    ensures x.cell.NoCell? || x.cell.candidate != c ==> Added(step, c).None?
  {
  }

  lemma WriteMean(s: State, x: Transaction, c: CandidateId, added: Option<seq<real>>)
    requires Sound(s, x) && MeanOf(Apply(s, x), c).Some?
    requires x.cell.Modify? && x.cell.candidate == c ==>
               !x.cell.change.Finish? && added == (if x.cell.change.Match? then Some(x.cell.change.row.vector) else None)
    requires x.cell.Create? && x.cell.candidate == c ==>
               x.cell.cell.summary.Some? && added == Some(x.cell.cell.summary.value.centroid) && x.cell.cell.summary.value.contributors == 1
    requires x.cell.NoCell? || x.cell.candidate != c ==> added.None?
    ensures if added.None? then MeanOf(s, c) == MeanOf(Apply(s, x), c)
            else MeanOf(Apply(s, x), c).value == JoinedBy(MeanOrNobody(s, c), added.value) && (MeanOf(s, c).Some? || c !in s.cells)
  {
    if x.cell.Modify? && x.cell.candidate == c { ChangeMean(s.cells[c], x.cell.change); }
  }

  lemma RunStepMean(h: History, steps: seq<Step>, k: nat, c: CandidateId)
    requires Run(h, steps) && k < |steps| && !Recomputes(steps[k], c) && MeanOf(h[k + 1], c).Some?
    ensures if Added(steps[k], c).None? then MeanOf(h[k], c) == MeanOf(h[k + 1], c)
            else MeanOf(h[k + 1], c).value == JoinedBy(MeanOrNobody(h[k], c), Added(steps[k], c).value) && (MeanOf(h[k], c).Some? || c !in h[k].cells)
  {
    var x := RunTransaction(h, steps, k);
    StepChange(h[..k + 1], k, steps[k], x, c);
    WriteMean(h[k], x, c, Added(steps[k], c));
  }

  lemma AddedCreates(h: History, steps: seq<Step>, k: nat, c: CandidateId)
    requires Run(h, steps) && k < |steps| && (c in h[k].cells || Added(steps[k], c).Some?)
    ensures c in h[k + 1].cells
  {
    var x := RunTransaction(h, steps, k);
    if c !in h[k].cells { StepChange(h[..k + 1], k, steps[k], x, c); }
  }

  lemma {:induction false} NothingAddedBefore(h: History, steps: seq<Step>, i: nat, k: nat, c: CandidateId)
    requires Run(h, steps) && i <= k < |h| && c !in h[k].cells
    ensures c !in h[i].cells && AddedIn(steps, i, k, c) == []
  {
    if i < k {
      if c in h[k - 1].cells || Added(steps[k - 1], c).Some? { AddedCreates(h, steps, k - 1, c); }
      NothingAddedBefore(h, steps, i, k - 1, c);
    }
  }

  lemma JoinedByOneMore(m: Mean, vectors: seq<seq<real>>, v: seq<real>)
    ensures JoinedByAll(m, vectors + [v]) == JoinedBy(JoinedByAll(m, vectors), v)
  {
    assert (vectors + [v])[..|vectors|] == vectors;
  }

  lemma NobodyBefore(h: History, steps: seq<Step>, i: nat, k: nat, c: CandidateId)
    requires Run(h, steps) && i <= k < |h| && c !in h[k].cells
    ensures MeanOrNobody(h[k], c) == JoinedByAll(MeanOrNobody(h[i], c), AddedIn(steps, i, k, c))
  {
    NothingAddedBefore(h, steps, i, k, c);
  }

  lemma JoinedByNext(m: Mean, before: Mean, after: Mean, steps: seq<Step>, i: nat, k: nat, c: CandidateId)
    requires i < k <= |steps| && before == JoinedByAll(m, AddedIn(steps, i, k - 1, c))
    requires after == match Added(steps[k - 1], c) case None => before case Some(v) => JoinedBy(before, v)
    ensures after == JoinedByAll(m, AddedIn(steps, i, k, c))
  {
    if Added(steps[k - 1], c).Some? {
      JoinedByOneMore(m, AddedIn(steps, i, k - 1, c), Added(steps[k - 1], c).value);
    } else {
      assert AddedIn(steps, i, k, c) == AddedIn(steps, i, k - 1, c);
    }
  }

  /** The mean one step earlier. */
  lemma MeanBefore(h: History, steps: seq<Step>, k: nat, c: CandidateId)
    requires Run(h, steps) && k < |steps| && !Recomputes(steps[k], c) && MeanOf(h[k + 1], c).Some?
    ensures MeanOf(h[k], c).Some? || c !in h[k].cells
    ensures MeanOf(h[k + 1], c).value == match Added(steps[k], c) case None => MeanOrNobody(h[k], c) case Some(v) => JoinedBy(MeanOrNobody(h[k], c), v)
  {
    RunStepMean(h, steps, k, c);
  }

  /** Between recomputations of a candidate, erasures, repeated submissions and lifecycle moves leave its
      centroid alone, and every new contributor enters it once, in order. */
  lemma {:induction false} CentroidOfRun(h: History, steps: seq<Step>, i: nat, k: nat, c: CandidateId)
    requires Run(h, steps) && i <= k < |h| && NotRecomputed(steps, i, k, c) && MeanOf(h[k], c).Some?
    ensures MeanOf(h[k], c).value == JoinedByAll(MeanOrNobody(h[i], c), AddedIn(steps, i, k, c))
    decreases k, 0
  {
    if i < k {
      MeanBefore(h, steps, k - 1, c);
      MeanSoFar(h, steps, i, k - 1, c);
      JoinedByNext(MeanOrNobody(h[i], c), MeanOrNobody(h[k - 1], c), MeanOf(h[k], c).value, steps, i, k, c);
    }
  }

  lemma {:induction false} MeanSoFar(h: History, steps: seq<Step>, i: nat, k: nat, c: CandidateId)
    requires Run(h, steps) && i <= k < |h| && NotRecomputed(steps, i, k, c) && (MeanOf(h[k], c).Some? || c !in h[k].cells)
    ensures MeanOrNobody(h[k], c) == JoinedByAll(MeanOrNobody(h[i], c), AddedIn(steps, i, k, c))
    decreases k, 1
  {
    if MeanOf(h[k], c).Some? { CentroidOfRun(h, steps, i, k, c); } else { NobodyBefore(h, steps, i, k, c); }
  }

  lemma {:induction false} FromNobody(vectors: seq<seq<real>>)
    ensures JoinedByAll(NOBODY, vectors).contributors == |vectors|
    ensures vectors != [] ==> JoinedByAll(NOBODY, vectors).centroid == Incremental(vectors)
  {
    if vectors != [] { FromNobody(vectors[..|vectors| - 1]); }
  }

  /** A candidate never recomputed: its centroid is within the drift bound of the exact mean of all the
      vectors ever added, in every coordinate. */
  lemma DriftOfRun(h: History, steps: seq<Step>, k: nat, c: CandidateId, d: nat, i: nat)
    requires Run(h, steps) && k < |h| && NotRecomputed(steps, 0, k, c) && MeanOf(h[k], c).Some?
    requires d >= 1 && Uniform(AddedIn(steps, 0, k, c), d) && i < d
    ensures var mean, vectors := MeanOf(h[k], c).value, AddedIn(steps, 0, k, c);
            && 1 <= mean.contributors == |vectors| && |mean.centroid| == d
            && var n := mean.contributors as real;
               Abs(mean.centroid[i] - Sum(vectors, d, i) / n) <= ((n + 1.0) / 2.0 - 1.0 / n) * HALF_UNIT
  {
    CentroidOfRun(h, steps, 0, k, c);
    FromNobody(AddedIn(steps, 0, k, c));
    SomebodyAdded(h, steps, k, c);
    DriftBound(AddedIn(steps, 0, k, c), d, i);
  }

  lemma {:induction false} SomebodyAdded(h: History, steps: seq<Step>, k: nat, c: CandidateId)
    requires Run(h, steps) && k < |h| && NotRecomputed(steps, 0, k, c) && MeanOf(h[k], c).Some?
    ensures AddedIn(steps, 0, k, c) != []
  {
    if k > 0 {
      RunStepMean(h, steps, k - 1, c);
      if Added(steps[k - 1], c).None? { SomebodyAdded(h, steps, k - 1, c); }
    }
  }
}
