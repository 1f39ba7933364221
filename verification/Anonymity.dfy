/** What is published, over whole runs. */
module Anonymity {
  import opened Basics
  import opened Candidate
  import opened CandidateSteps
  import opened Dimensions
  import opened Table
  import opened Observations
  import opened Protocol
  import opened Phases
  import opened Conservation
  import Publisher

  type History = Observations.History

  predicate PublishesAt(steps: seq<Step>, j: nat, c: CandidateId, now: nat) {
    && j < |steps| && steps[j].Publishing? && steps[j].publishing.PublishCandidate?
    && steps[j].publishing.candidate == c && steps[j].publishing.now == now
  }

  /** The state a publication commits to: at least ten contributors behind the body, none of them
      with a tombstone then or at any time before. */
  ghost predicate PublishedFrom(h: History, j: nat, c: CandidateId, now: nat, body: Body)
    requires j < |h|
  {
    && c in h[j].cells
    && var rows := h[j].cells[c].rows;
    var s := Unexpired(rows, now);
    && MINIMUM_CONTRIBUTORS <= |s| <= MAX_ACTIONS - 4
    && Aggregates(body, rows, s)
    && body.submissions == |CountedAmong(h[j].counted, c, s)|
    && body.contributors <= body.submissions <= 3 * body.contributors
    && forall t, i :: t in s && 0 <= i <= j ==> PartOf(h[i], OwnerOf(h[j], c, t)).tombstone.None?
  }

  // ---------------------------------------------------------------- where aggregates come from

  lemma CellGainsAggregate(c: Cell, ch: Change)
    requires Admissible(c, ch) && Next(c, ch).aggregate.Some?
    ensures if c.aggregate.Some? then Next(c, ch).aggregate.value.body == c.aggregate.value.body
            else ch.Publish? && Next(c, ch).aggregate.value.body == ch.body
  {
  }

  lemma GainsAggregate(s: State, x: Transaction, c: CandidateId)
    requires Sound(s, x) && AggregateOf(Apply(s, x), c).Some?
    ensures if AggregateOf(s, c).Some? then AggregateOf(Apply(s, x), c).value.body == AggregateOf(s, c).value.body
            else x.cell.Modify? && x.cell.candidate == c && x.cell.change.Publish?
                 && AggregateOf(Apply(s, x), c).value.body == x.cell.change.body
  {
    if x.cell.Modify? && x.cell.candidate == c { CellGainsAggregate(s.cells[c], x.cell.change); }
  }

  lemma OnlyPublishingPublishes(h: History, k: nat, step: Step)
    requires k < |h| && Protocol.Enabled(h, k, step)
    requires Protocol.Writes(h, k, step).cell.Modify? && Protocol.Writes(h, k, step).cell.change.Publish?
    ensures PublishesAt([step], 0, Protocol.Writes(h, k, step).cell.candidate, Protocol.Writes(h, k, step).cell.change.now)
  {
  }

  lemma PublishAdmitted(c: Cell, seen: Summary, now: nat, body: Body)
    requires Admissible(c, Publish(seen, now, body))
    ensures Aggregates(body, c.rows, Unexpired(c.rows, now)) && |Unexpired(c.rows, now)| >= MINIMUM_CONTRIBUTORS
    ensures c.aggregate.None? && c.summary == Some(seen) && seen.phase.Frozen?
    ensures body.expiresAt == seen.phase.publication.startedAt + AGGREGATE_SECONDS
  {
    BodyAggregates(c.bucket, c.period, c.rows, seen.phase.publication, now);
  }

  /** The publication's own guard speaks about the contributions it collected. */
  lemma PublishGuard(h: History, k: nat, step: Publisher.PublisherStep)
    requires Coherent(h, k) && Publisher.Enabled(h, k, step) && step.PublishCandidate?
    ensures step.candidate in h[k].cells
    ensures |Unexpired(h[k].cells[step.candidate].rows, step.now)| + 4 <= MAX_ACTIONS
    ensures forall t :: t in Unexpired(h[k].cells[step.candidate].rows, step.now) ==>
              PartOf(h[k], OwnerOf(h[k], step.candidate, t)).tombstone.None?
  {
    Publisher.CollectedAll(h, k, step.candidate, step.r, step.pages);
  }

  lemma NeverFenced(h: History, steps: seq<Step>, i: nat, j: nat, p: Partition)
    requires Run(h, steps) && i <= j < |h| && PartOf(h[j], p).tombstone.None?
    ensures PartOf(h[i], p).tombstone.None?
  {
    RunEvolves(h, steps, i, j);
    assert PartEvolves(PartOf(h[i], p), PartOf(h[j], p));
  }

  lemma PublicationCounts(s: State, c: CandidateId, now: nat)
    requires Table.Inv(s) && c in s.cells
    ensures CappedSum(s.cells[c].rows, Unexpired(s.cells[c].rows, now)) == |CountedAmong(s.counted, c, Unexpired(s.cells[c].rows, now))|
    ensures |Unexpired(s.cells[c].rows, now)| <= CappedSum(s.cells[c].rows, Unexpired(s.cells[c].rows, now)) <= 3 * |Unexpired(s.cells[c].rows, now)|
  {
    RowsCountNow(s, c);
    CappedBounds(s.counted, c, s.cells[c].rows, Unexpired(s.cells[c].rows, now));
    CappedSumCounts(s.counted, c, s.cells[c].rows, Unexpired(s.cells[c].rows, now));
  }

  lemma PublishStep(h: History, steps: seq<Step>, j: nat, c: CandidateId, now: nat)
    requires Run(h, steps) && PublishesAt(steps, j, c, now)
    ensures AggregateOf(h[j], c).None? && AggregateOf(h[j + 1], c).Some?
    ensures PublishedFrom(h, j, c, now, AggregateOf(h[j + 1], c).value.body)
    ensures SummaryOf(h[j], c).Some? && NotOpen(h[j], c)
    ensures AggregateOf(h[j + 1], c).value.body.expiresAt ==
            SummaryOf(h[j], c).value.phase.publication.startedAt + AGGREGATE_SECONDS
  {
    var body := PublishWrites(h, steps, j, c, now);
    RunInv(h, steps, j);
    PublicationCounts(h[j], c, now);
    forall t, i | t in Unexpired(h[j].cells[c].rows, now) && 0 <= i <= j
      ensures PartOf(h[i], OwnerOf(h[j], c, t)).tombstone.None?
    {
      NeverFenced(h, steps, i, j, OwnerOf(h[j], c, t));
    }
  }

  lemma PublishWrites(h: History, steps: seq<Step>, j: nat, c: CandidateId, now: nat) returns (body: Body)
    requires Run(h, steps) && PublishesAt(steps, j, c, now)
    ensures AggregateOf(h[j], c).None? && AggregateOf(h[j + 1], c).Some? && AggregateOf(h[j + 1], c).value.body == body
    ensures c in h[j].cells && Aggregates(body, h[j].cells[c].rows, Unexpired(h[j].cells[c].rows, now))
    ensures MINIMUM_CONTRIBUTORS <= |Unexpired(h[j].cells[c].rows, now)| <= MAX_ACTIONS - 4
    ensures forall t :: t in Unexpired(h[j].cells[c].rows, now) ==> PartOf(h[j], OwnerOf(h[j], c, t)).tombstone.None?
    ensures SummaryOf(h[j], c).Some? && SummaryOf(h[j], c).value.phase.Frozen?
    ensures body.expiresAt == SummaryOf(h[j], c).value.phase.publication.startedAt + AGGREGATE_SECONDS
  {
    var x := PublishChange(h, steps, j, c, now);
    body := x.cell.change.body;
    PublishAdmitted(h[j].cells[c], x.cell.change.seen, now, body);
    PublishUnfenced(h, steps, j, c, now);
  }

  lemma PublishChange(h: History, steps: seq<Step>, j: nat, c: CandidateId, now: nat) returns (x: Transaction)
    requires Run(h, steps) && PublishesAt(steps, j, c, now)
    ensures x.cell.Modify? && x.cell.candidate == c && x.cell.change.Publish? && x.cell.change.now == now
    ensures c in h[j].cells && Admissible(h[j].cells[c], x.cell.change)
    ensures c in h[j + 1].cells && h[j + 1].cells[c] == Next(h[j].cells[c], x.cell.change)
  {
    x := RunTransaction(h, steps, j);
  }

  lemma PublishUnfenced(h: History, steps: seq<Step>, j: nat, c: CandidateId, now: nat)
    requires Run(h, steps) && PublishesAt(steps, j, c, now)
    ensures c in h[j].cells && |Unexpired(h[j].cells[c].rows, now)| + 4 <= MAX_ACTIONS
    ensures forall t :: t in Unexpired(h[j].cells[c].rows, now) ==> PartOf(h[j], OwnerOf(h[j], c, t)).tombstone.None?
  {
    RunCoherent(h, steps, j);
    CoherentPrefix(h, j);
    assert StepAt(h, steps, j);
    PublishGuard(h[..j + 1], j, steps[j].publishing);
  }

  lemma AggregateStep(h: History, steps: seq<Step>, k: nat, c: CandidateId) returns (now: nat)
    requires Run(h, steps) && k < |steps| && AggregateOf(h[k + 1], c).Some?
    ensures if AggregateOf(h[k], c).Some? then AggregateOf(h[k + 1], c).value.body == AggregateOf(h[k], c).value.body
            else PublishesAt(steps, k, c, now)
  {
    var x := RunTransaction(h, steps, k);
    GainsAggregate(h[k], x, c);
    if AggregateOf(h[k], c).Some? {
      now := 0;
    } else {
      OnlyPublishingPublishes(h[..k + 1], k, steps[k]);
      now := x.cell.change.now;
    }
  }

  /** The step that published an aggregate. */
  lemma {:induction false} PublishedBefore(h: History, steps: seq<Step>, k: nat, c: CandidateId) returns (j: nat, now: nat)
    requires Run(h, steps) && k < |h| && AggregateOf(h[k], c).Some?
    ensures j < k && PublishesAt(steps, j, c, now) && AggregateOf(h[j + 1], c).Some?
    ensures AggregateOf(h[j + 1], c).value.body == AggregateOf(h[k], c).value.body
  {
    now := AggregateStep(h, steps, k - 1, c);
    if AggregateOf(h[k - 1], c).Some? { j, now := PublishedBefore(h, steps, k - 1, c); } else { j := k - 1; }
  }

  /** Anonymity over whole runs: every aggregate that ever exists stems from one publication behind
      which stood at least ten contributors, all unexpired, none tombstoned before or at the commit;
      it reports exactly their capped submissions, each a distinct counted event, and exactly the
      identifiers at least ten of them carry; and it expires 400 days after the candidate's only
      freeze. */
  lemma EveryAggregateAnonymous(h: History, steps: seq<Step>, k: nat, c: CandidateId) returns (i: nat, j: nat, now: nat, p: Publication)
    requires Run(h, steps) && k < |h| && AggregateOf(h[k], c).Some?
    ensures i < j < k && FreezesAt(steps, i, c, p) && PublishesAt(steps, j, c, now)
    ensures PublishedFrom(h, j, c, now, AggregateOf(h[k], c).value.body)
    ensures AggregateOf(h[k], c).value.body.expiresAt == p.startedAt + AGGREGATE_SECONDS
  {
    j, now := PublishedBefore(h, steps, k, c);
    PublishStep(h, steps, j, c, now);
    p := SummaryOf(h[j], c).value.phase.publication;
    i := FrozenBefore(h, steps, j, c);
  }

  lemma AggregateStays(h: History, steps: seq<Step>, i: nat, j: nat, c: CandidateId)
    requires Run(h, steps) && i <= j < |h| && AggregateOf(h[i], c).Some?
    ensures AggregateOf(h[j], c).Some? && AggregateOf(h[j], c).value.body == AggregateOf(h[i], c).value.body
  {
    RunEvolves(h, steps, i, j);
    assert CandidateSteps.Evolves(h[i].cells[c], h[j].cells[c]);
  }

  lemma PublishNeedsNone(h: History, steps: seq<Step>, j: nat, c: CandidateId, now: nat)
    requires Run(h, steps) && PublishesAt(steps, j, c, now)
    ensures AggregateOf(h[j], c).None? && AggregateOf(h[j + 1], c).Some?
  {
    PublishStep(h, steps, j, c, now);
  }

  /** A candidate is published at most once, and what was published never changes. */
  lemma PublishedOnce(h: History, steps: seq<Step>, i: nat, j: nat, c: CandidateId, m: nat, n: nat)
    requires Run(h, steps) && PublishesAt(steps, i, c, m) && PublishesAt(steps, j, c, n)
    ensures i == j
  {
    if i != j {
      var a, b := if i < j then i else j, if i < j then j else i;
      PublishNeedsNone(h, steps, i, c, m);
      PublishNeedsNone(h, steps, j, c, n);
      AggregateStays(h, steps, a + 1, b, c);
    }
  }
}
