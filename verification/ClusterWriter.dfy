/** The cluster writer: counting one event for one contribution of a candidate. */
module ClusterWriter {
  import opened Basics
  import opened Candidate
  import opened CandidateSteps
  import opened Table
  import opened Observations

  datatype ClusterStep =
    | NewCandidate(event: EventId, f: nat, candidate: CandidateId, bucket: string, row: Row, now: nat, days: nat)
    | JoinCandidate(event: EventId, f: nat, r: nat, candidate: CandidateId, row: Row, now: nat, days: nat)
    | RepeatSubmission(event: EventId, f: nat, r: nat, q: nat, candidate: CandidateId)
    | CapSubmission(event: EventId, f: nat, r: nat, q: nat, candidate: CandidateId)

  predicate FeatureSeen(h: History, f: nat, e: EventId) {
    f < |h| && e in h[f].events && h[f].events[e].feature
  }

  /** What every cluster transaction checks about its event when it commits. */
  predicate ClusterGuard(s: State, e: EventId) {
    && e in s.events && s.events[e].clustered.None?
    && s.events[e].owner.period !in s.closing
    && PartOf(s, s.events[e].owner).tombstone.None?
    && EventKey(e) in PartOf(s, s.events[e].owner).locators
  }

  predicate NewRow(s: State, e: EventId, row: Row, now: nat, days: nat)
    requires e in s.events
  {
    && row.submissions == 1 && row.vectorApplied && UsableVector(row.vector)
    && row.expiresAt == Deadline(s.events[e].owner.period, now, s.events[e].expiresAt, days) && now < row.expiresAt
  }

  function FreshCell(period: nat, bucket: string, t: Token, row: Row): Cell {
    Cell(period, bucket, Some(Summary(1, row.expiresAt, 1, 1, row.vector, row.meta, Open)), map[t := row], None, None, map[])
  }

  function Counting(s: State, e: EventId, c: CandidateId): Transaction
    requires e in s.events
  {
    NO_WRITES.(event := Some((e, s.events[e].(clustered := Some(Counted)))),
               counted := Some((e, (c, s.events[e].owner.token))))
  }

  /** The guard of a step, evaluated against its reads and the state it commits to. */
  ghost predicate Enabled(h: History, k: nat, step: ClusterStep)
    requires k < |h|
  {
    var s := h[k];
    match step
    case NewCandidate(e, f, c, bucket, row, now, days) =>
      && f <= k && FeatureSeen(h, f, e) && ClusterGuard(s, e) && NewRow(s, e, row, now, days) && c !in s.cells
    case JoinCandidate(e, f, r, c, row, now, days) =>
      && f <= r <= k && FeatureSeen(h, f, e) && ClusterGuard(s, e) && NewRow(s, e, row, now, days)
      && SeesSummary(h, r, c) && h[r].cells[c].period == s.events[e].owner.period
      && OpenAtVersion(s, c, SummaryAt(h, r, c).version) && s.events[e].owner.token !in s.cells[c].rows
      && s.events[e].owner.token !in s.cells[c].strays
      && CandidateKey(c) !in PartOf(s, s.events[e].owner).locators
    case RepeatSubmission(e, f, r, q, c) =>
      && f <= r <= q <= k && FeatureSeen(h, f, e) && ClusterGuard(s, e)
      && SeesSummary(h, r, c) && h[r].cells[c].period == s.events[e].owner.period
      && OpenAtVersion(s, c, SummaryAt(h, r, c).version)
      && var t := s.events[e].owner.token;
      && c in h[q].cells && t in h[q].cells[c].rows && t in s.cells[c].rows
      && s.cells[c].rows[t].submissions < MAX_SUBMISSIONS && s.cells[c].rows[t].meta == h[q].cells[c].rows[t].meta
      && PairOwned(s, c, t, h[q].cells[c].rows[t].expiresAt)
    case CapSubmission(e, f, r, q, c) =>
      && f <= r <= q <= k && FeatureSeen(h, f, e) && ClusterGuard(s, e)
      && SeesSummary(h, r, c) && h[r].cells[c].period == s.events[e].owner.period
      && OpenAtVersion(s, c, SummaryAt(h, r, c).version)
      && var t := s.events[e].owner.token;
      && c in h[q].cells && t in h[q].cells[c].rows && h[q].cells[c].rows[t].submissions >= MAX_SUBMISSIONS
      && CandidateKey(c) in PartOf(s, s.events[e].owner).locators
  }

  /** The writes of a step. */
  ghost function Writes(h: History, k: nat, step: ClusterStep): Transaction
    requires k < |h| && Enabled(h, k, step)
  {
    var s := h[k];
    match step
    case NewCandidate(e, f, c, bucket, row, now, days) =>
      var p := s.events[e].owner;
      Counting(s, e, c).(cell := Create(c, FreshCell(p.period, bucket, p.token, row)),
                         locator := AddLocator(p, CandidateKey(c), row.expiresAt))
    case JoinCandidate(e, f, r, c, row, now, days) =>
      var p := s.events[e].owner;
      Counting(s, e, c).(cell := Modify(c, Match(SummaryAt(h, r, c), p.token, row)),
                         locator := AddLocator(p, CandidateKey(c), row.expiresAt))
    case RepeatSubmission(e, f, r, q, c) =>
      var t := s.events[e].owner.token;
      Counting(s, e, c).(cell := Modify(c, Repeat(SummaryAt(h, r, c), t, h[q].cells[c].rows[t].expiresAt)))
    case CapSubmission(e, f, r, q, c) =>
      NO_WRITES.(event := Some((e, s.events[e].(clustered := Some(ContributorCapped)))))
  }

  /** The selected candidate is still open at the version seen, so it is exactly the one seen. */
  lemma StillOpen(h: History, k: nat, r: nat, q: nat, c: CandidateId)
    requires Coherent(h, k) && r <= q <= k && SeesSummary(h, r, c) && OpenAtVersion(h[k], c, SummaryAt(h, r, c).version)
    ensures h[k].cells[c].summary == Some(SummaryAt(h, r, c)) && SummaryAt(h, r, c).phase.Open?
    ensures c in h[q].cells && h[q].cells[c].rows == h[k].cells[c].rows
    ensures h[k].cells[c].period == h[r].cells[c].period
  {
    assert Later(h, r, k);
    VersionFence(h, k, r, q, c);
  }

  lemma StepSound(h: History, k: nat, step: ClusterStep)
    requires Coherent(h, k) && Enabled(h, k, step)
    ensures Sound(h[k], Writes(h, k, step))
  {
    assert SoundAt(h, k);
    match step
    case NewCandidate(e, f, c, bucket, row, now, days) =>
    case JoinCandidate(e, f, r, c, row, now, days) =>
      StillOpen(h, k, r, k, c);
    case RepeatSubmission(e, f, r, q, c) =>
      StillOpen(h, k, r, q, c);
    case CapSubmission(e, f, r, q, c) =>
  }
}
