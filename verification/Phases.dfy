/** The publication state machine of a candidate, along whole runs. */
module Phases {
  import opened Basics
  import opened Candidate
  import opened CandidateSteps
  import opened Table
  import opened Observations
  import opened Protocol

  type History = Observations.History

  function SummaryOf(s: State, c: CandidateId): Option<Summary> {
    if c in s.cells then s.cells[c].summary else None
  }

  function AggregateOf(s: State, c: CandidateId): Option<Aggregate> {
    if c in s.cells then s.cells[c].aggregate else None
  }

  lemma TransactionPhase(s: State, x: Transaction, c: CandidateId)
    requires Table.Inv(s) && Sound(s, x)
    ensures c in s.cells ==> PhaseEdge(SummaryOf(s, c), SummaryOf(Apply(s, x), c))
    ensures c !in s.cells && c in Apply(s, x).cells ==> SummaryOf(Apply(s, x), c).Some? && SummaryOf(Apply(s, x), c).value.phase.Open?
  {
    if c in s.cells && x.cell.Modify? && x.cell.candidate == c { PhaseEdges(s.cells[c], x.cell.change); }
  }

  /** Along every run a candidate is created open, and then takes only the machine's edges. */
  lemma PhaseMachine(h: History, steps: seq<Step>, k: nat, c: CandidateId)
    requires Run(h, steps) && k < |steps|
    ensures c in h[k].cells ==> PhaseEdge(SummaryOf(h[k], c), SummaryOf(h[k + 1], c))
    ensures c !in h[k].cells && c in h[k + 1].cells ==> SummaryOf(h[k + 1], c).Some? && SummaryOf(h[k + 1], c).value.phase.Open?
  {
    var x := RunEffect(h, steps, k);
    TransactionPhase(h[k], x, c);
  }

  lemma CellEvidence(c: Cell, s: Summary)
    requires CandidateSteps.Inv(c) && c.summary == Some(s)
    ensures s.phase.Published? ==> c.aggregate.Some? && c.aggregate.value.body == s.phase.digest
    ensures !s.phase.Published? ==> c.aggregate.None?
    ensures s.phase.Frozen? || s.phase.Final() ==> c.checkpoint.None?
  {
  }

  /** A published candidate has the aggregate its digest names; no other candidate with a summary
      has one, a suppressed one in particular. */
  lemma PhaseEvidence(h: History, steps: seq<Step>, k: nat, c: CandidateId)
    requires Run(h, steps) && k < |h| && SummaryOf(h[k], c).Some?
    ensures AggregateOf(h[k], c).Some? <==> SummaryOf(h[k], c).value.phase.Published?
    ensures SummaryOf(h[k], c).value.phase.Published? ==>
              AggregateOf(h[k], c).value.body == SummaryOf(h[k], c).value.phase.digest
  {
    RunInv(h, steps, k);
    CellEvidence(h[k].cells[c], h[k].cells[c].summary.value);
  }

  // ---------------------------------------------------------------- freezing

  predicate FreezesAt(steps: seq<Step>, i: nat, c: CandidateId, p: Publication) {
    && i < |steps| && steps[i].Publishing? && steps[i].publishing.FreezeCandidate?
    && steps[i].publishing.candidate == c && Publication(steps[i].publishing.operation, steps[i].publishing.now) == p
  }

  predicate NotOpen(s: State, c: CandidateId) {
    SummaryOf(s, c).Some? && !SummaryOf(s, c).value.phase.Open?
  }

  lemma CellLeavingOpen(c: Cell, ch: Change)
    requires Admissible(c, ch) && Next(c, ch).summary.Some? && !Next(c, ch).summary.value.phase.Open?
    ensures c.summary.Some?
    ensures if !c.summary.value.phase.Open?
            then Next(c, ch).summary.value.phase.publication == c.summary.value.phase.publication
            else ch.Freeze? && ch.publication == Next(c, ch).summary.value.phase.publication
  {
  }

  lemma LeavingOpen(s: State, x: Transaction, c: CandidateId)
    requires Sound(s, x) && NotOpen(Apply(s, x), c)
    ensures c in s.cells && s.cells[c].summary.Some?
    ensures if NotOpen(s, c) then SummaryOf(Apply(s, x), c).value.phase.publication == SummaryOf(s, c).value.phase.publication
            else x.cell.Modify? && x.cell.candidate == c && x.cell.change.Freeze?
                 && x.cell.change.publication == SummaryOf(Apply(s, x), c).value.phase.publication
  {
    if x.cell.Modify? && x.cell.candidate == c { CellLeavingOpen(s.cells[c], x.cell.change); }
  }

  lemma OnlyFreezingFreezes(h: History, k: nat, step: Step)
    requires k < |h| && Protocol.Enabled(h, k, step)
    requires Protocol.Writes(h, k, step).cell.Modify? && Protocol.Writes(h, k, step).cell.change.Freeze?
    ensures FreezesAt([step], 0, Protocol.Writes(h, k, step).cell.candidate, Protocol.Writes(h, k, step).cell.change.publication)
  {
  }

  lemma FreezeStep(h: History, steps: seq<Step>, k: nat, c: CandidateId)
    requires Run(h, steps) && k < |steps| && NotOpen(h[k + 1], c)
    ensures if NotOpen(h[k], c) then SummaryOf(h[k + 1], c).value.phase.publication == SummaryOf(h[k], c).value.phase.publication
            else FreezesAt(steps, k, c, SummaryOf(h[k + 1], c).value.phase.publication)
  {
    var x := RunTransaction(h, steps, k);
    LeavingOpen(h[k], x, c);
    if !NotOpen(h[k], c) { OnlyFreezingFreezes(h[..k + 1], k, steps[k]); }
  }

  /** A candidate that is not open was frozen, and carries the operation and time of that freeze. */
  lemma {:induction false} FrozenBefore(h: History, steps: seq<Step>, k: nat, c: CandidateId) returns (i: nat)
    requires Run(h, steps) && k < |h| && NotOpen(h[k], c)
    ensures i < k && FreezesAt(steps, i, c, SummaryOf(h[k], c).value.phase.publication)
  {
    FreezeStep(h, steps, k - 1, c);
    if NotOpen(h[k - 1], c) { i := FrozenBefore(h, steps, k - 1, c); } else { i := k - 1; }
  }

  lemma FreezeNeedsOpen(h: History, steps: seq<Step>, i: nat, c: CandidateId, p: Publication)
    requires Run(h, steps) && FreezesAt(steps, i, c, p)
    ensures SummaryOf(h[i], c).Some? && !NotOpen(h[i], c) && NotOpen(h[i + 1], c)
  {
    var x := RunTransaction(h, steps, i);
  }

  /** However many repairs follow, a candidate is frozen at most once. */
  lemma FrozenOnce(h: History, steps: seq<Step>, i: nat, j: nat, c: CandidateId, p: Publication, q: Publication)
    requires Run(h, steps) && FreezesAt(steps, i, c, p) && FreezesAt(steps, j, c, q)
    ensures i == j
  {
    if i != j {
      var a, b := if i < j then i else j, if i < j then j else i;
      FreezeNeedsOpen(h, steps, i, c, p);
      FreezeNeedsOpen(h, steps, j, c, q);
      StaysFrozen(h, steps, a + 1, b, c);
    }
  }

  lemma StaysFrozen(h: History, steps: seq<Step>, i: nat, j: nat, c: CandidateId)
    requires Run(h, steps) && i <= j < |h| && NotOpen(h[i], c)
    ensures SummaryOf(h[j], c).Some? ==> NotOpen(h[j], c)
  {
    RunEvolves(h, steps, i, j);
    assert CandidateSteps.Evolves(h[i].cells[c], h[j].cells[c]);
  }
}
