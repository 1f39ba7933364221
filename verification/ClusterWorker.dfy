/** One delivery of one event to the cluster writer: it reads the listed candidates, chooses the one
    that resembles the feature most, and counts the event there or founds a candidate. */
module ClusterWorker {
  import opened Basics
  import opened Candidate
  import opened CandidateSteps
  import opened Metadata
  import opened Table
  import opened Observations
  import opened Store
  import opened Protocol
  import opened RecomputeWorker
  import opened ClusterWriter
  import opened Similarity

  type History = Observations.History
  type Step = Protocol.Step

  datatype Delivery = Missing | Ignored | Duplicate | Capped | CountedRepeat | Matched | CandidateCreated | Refused
  {
    predicate Counts() { CountedRepeat? || Matched? || CandidateCreated? }
  }

  /** What a feature contributes. */
  datatype Feature = Feature(language: string, vector: seq<real>, meta: Metadata)

  function RowOf(f: Feature, expiresAt: nat): Row { Row(1, expiresAt, f.language, true, f.vector, f.meta) }

  // ---------------------------------------------------------------- conditions

  /** What every transaction of a delivery checks: period open, no tombstone, event not yet
      clustered, its locator exactly as observed. */
  predicate EventGuard(s: State, e: EventId, seen: Event) {
    && ClusterGuard(s, e) && s.events[e].owner == seen.owner && s.events[e].expiresAt == seen.expiresAt
    && PartOf(s, seen.owner).locators[EventKey(e)] == seen.expiresAt
  }

  function NewGuard(e: EventId, seen: Event, c: CandidateId): State -> bool {
    (s: State) => EventGuard(s, e, seen) && c !in s.cells
  }

  function JoinGuard(e: EventId, seen: Event, c: CandidateId, version: nat): State -> bool {
    (s: State) => EventGuard(s, e, seen) && OpenAtVersion(s, c, version) && seen.owner.token !in s.cells[c].rows
         && seen.owner.token !in s.cells[c].strays && CandidateKey(c) !in PartOf(s, seen.owner).locators
  }

  function RepeatGuard(e: EventId, seen: Event, c: CandidateId, version: nat, row: Row): State -> bool {
    (s: State) => EventGuard(s, e, seen) && OpenAtVersion(s, c, version) && seen.owner.token in s.cells[c].rows
         && s.cells[c].rows[seen.owner.token].submissions < MAX_SUBMISSIONS && s.cells[c].rows[seen.owner.token].meta == row.meta
         && PairOwned(s, c, seen.owner.token, row.expiresAt)
  }

  function CapGuard(e: EventId, seen: Event, c: CandidateId, version: nat): State -> bool {
    (s: State) => EventGuard(s, e, seen) && OpenAtVersion(s, c, version) && CandidateKey(c) in PartOf(s, seen.owner).locators
  }

  // ---------------------------------------------------------------- writes

  function Creating(e: EventId, seen: Event, c: CandidateId, bucket: string, row: Row): State --> Transaction {
    (s: State) requires e in s.events =>
      Counting(s, e, c).(cell := Create(c, FreshCell(seen.owner.period, bucket, seen.owner.token, row)),
                         locator := AddLocator(seen.owner, CandidateKey(c), row.expiresAt))
  }

  function Joining(e: EventId, seen: Event, c: CandidateId, summary: Summary, row: Row): State --> Transaction {
    (s: State) requires e in s.events =>
      Counting(s, e, c).(cell := Modify(c, Match(summary, seen.owner.token, row)),
                         locator := AddLocator(seen.owner, CandidateKey(c), row.expiresAt))
  }

  function Repeating(e: EventId, seen: Event, c: CandidateId, summary: Summary, row: Row): State --> Transaction {
    (s: State) requires e in s.events => Counting(s, e, c).(cell := Modify(c, Repeat(summary, seen.owner.token, row.expiresAt)))
  }

  function Capping(e: EventId): State --> Transaction {
    (s: State) requires e in s.events => NO_WRITES.(event := Some((e, s.events[e].(clustered := Some(ContributorCapped)))))
  }

  // ---------------------------------------------------------------- each is a protocol step

  ghost predicate SawEvent(h: History, f: nat, e: EventId, seen: Event) {
    FeatureSeen(h, f, e) && h[f].events[e] == seen
  }

  ghost predicate SawCandidate(h: History, f: nat, r: nat, e: EventId, seen: Event, c: CandidateId, summary: Summary) {
    && SawEvent(h, f, e, seen) && f <= r && SeesSummary(h, r, c) && SummaryAt(h, r, c) == summary
    && h[r].cells[c].period == seen.owner.period
  }

  lemma NewRefines(h: History, e: EventId, f: nat, seen: Event, c: CandidateId, bucket: string, row: Row, now: nat, days: nat)
    requires SawEvent(h, f, e, seen) && row.submissions == 1 && row.vectorApplied && UsableVector(row.vector)
    requires row.expiresAt == Deadline(seen.owner.period, now, seen.expiresAt, days) && now < row.expiresAt
    ensures AlwaysRefines(h, NewGuard(e, seen, c), Creating(e, seen, c, bucket, row),
                          Cluster(NewCandidate(e, f, c, bucket, row, now, days)))
  {
  }

  lemma JoinRefines(h: History, e: EventId, f: nat, r: nat, seen: Event, c: CandidateId, summary: Summary, row: Row, now: nat, days: nat)
    requires SawCandidate(h, f, r, e, seen, c, summary) && row.submissions == 1 && row.vectorApplied && UsableVector(row.vector)
    requires row.expiresAt == Deadline(seen.owner.period, now, seen.expiresAt, days) && now < row.expiresAt
    ensures AlwaysRefines(h, JoinGuard(e, seen, c, summary.version), Joining(e, seen, c, summary, row),
                          Cluster(JoinCandidate(e, f, r, c, row, now, days)))
  {
  }

  lemma RepeatRefines(h: History, e: EventId, f: nat, r: nat, q: nat, seen: Event, c: CandidateId, summary: Summary, row: Row)
    requires SawCandidate(h, f, r, e, seen, c, summary) && r <= q < |h| && c in h[q].cells
    requires seen.owner.token in h[q].cells[c].rows && h[q].cells[c].rows[seen.owner.token] == row
    ensures AlwaysRefines(h, RepeatGuard(e, seen, c, summary.version, row), Repeating(e, seen, c, summary, row),
                          Cluster(RepeatSubmission(e, f, r, q, c)))
  {
  }

  lemma CapRefines(h: History, e: EventId, f: nat, r: nat, q: nat, seen: Event, c: CandidateId, summary: Summary)
    requires SawCandidate(h, f, r, e, seen, c, summary) && r <= q < |h| && c in h[q].cells
    requires seen.owner.token in h[q].cells[c].rows && h[q].cells[c].rows[seen.owner.token].submissions >= MAX_SUBMISSIONS
    ensures AlwaysRefines(h, CapGuard(e, seen, c, summary.version), Capping(e), Cluster(CapSubmission(e, f, r, q, c)))
  {
  }

  // ---------------------------------------------------------------- what a delivery achieves

  /** The event is counted for this contributor's contribution to this candidate. */
  function CountsFor(e: EventId, c: CandidateId, t: Token): State -> bool {
    (s: State) => e in s.counted && s.counted[e] == (c, t) && c in s.cells && t in s.cells[c].rows
         && e in s.events && s.events[e].clustered == Some(Table.Outcome.Counted)
  }

  function OutcomeIs(e: EventId, outcome: Table.Outcome): State -> bool {
    (s: State) => e in s.events && s.events[e].clustered == Some(outcome)
  }

  // ---------------------------------------------------------------- what a delivery stores

  /** The row holds what the feature brings, counted once, until the earliest of its three deadlines. */
  predicate Holds(row: Row, feature: Feature, event: Event, now: nat, days: nat) {
    && row.submissions == 1 && row.vectorApplied
    && row.language == feature.language && row.vector == feature.vector && row.meta == feature.meta
    && var horizon := (event.owner.period + 1) * PERIOD_SECONDS + RECOVERY_SECONDS;
    && row.expiresAt <= event.expiresAt && row.expiresAt <= now + days * 86400 && row.expiresAt <= horizon
    && (row.expiresAt == event.expiresAt || row.expiresAt == now + days * 86400 || row.expiresAt == horizon)
  }

  ghost predicate Dated(s: State, e: EventId, row: Row, now: nat, days: nat) {
    e in s.events && row.expiresAt == Deadline(s.events[e].owner.period, now, s.events[e].expiresAt, days)
  }

  lemma RowHolds(s: State, e: EventId, feature: Feature, row: Row, now: nat, days: nat)
    requires Dated(s, e, row, now, days) && row == RowOf(feature, row.expiresAt)
    ensures Holds(row, feature, s.events[e], now, days)
  {
  }

  /** The candidate is new, with this contribution alone, and its summary describes it. */
  ghost predicate Founded(before: State, after: State, c: CandidateId, t: Token, row: Row) {
    && c !in before.cells && c in after.cells && after.cells[c].rows == map[t := row] && after.cells[c].summary.Some?
    && var s := after.cells[c].summary.value;
    && s.contributors == 1 && s.submissions == 1 && s.centroid == row.vector && s.meta == row.meta
    && s.expiresAt == row.expiresAt && s.phase.Open?
  }

  /** The summary counts one contribution more: the vector enters the incremental centroid, and each metadata
      field keeps the first of both in sorted order. */
  ghost predicate Includes(before: Summary, after: Summary, row: Row) {
    && after.contributors == before.contributors + 1 && after.submissions == before.submissions + 1
    && after.version == before.version + 1 && after.expiresAt == before.expiresAt && after.phase == before.phase
    && FirstOf(after.meta.lexical, before.meta.lexical + row.meta.lexical, 32)
    && FirstOf(after.meta.signals, before.meta.signals + row.meta.signals, 16)
    && FirstOf(after.meta.indicators, before.meta.indicators + row.meta.indicators, 16)
    && after.centroid == UpdatedCentroid(before.centroid, before.contributors, row.vector)
  }

  /** The contribution is new in the candidate, the others are as they were, and the summary includes it. */
  ghost predicate Joined(before: State, after: State, c: CandidateId, t: Token, row: Row) {
    && c in before.cells && c in after.cells && t !in before.cells[c].rows
    && after.cells[c].rows == before.cells[c].rows[t := row]
    && before.cells[c].summary.Some? && after.cells[c].summary.Some?
    && Includes(before.cells[c].summary.value, after.cells[c].summary.value, row)
  }

  /** The contribution counts one submission more, and so does the summary; nothing else changes. */
  ghost predicate Recounted(before: State, after: State, c: CandidateId, t: Token) {
    && c in before.cells && c in after.cells && t in before.cells[c].rows
    && before.cells[c].summary.Some?
    && var row, s := before.cells[c].rows[t], before.cells[c].summary.value;
    && after.cells[c].rows == before.cells[c].rows[t := row.(submissions := row.submissions + 1)]
    && after.cells[c].summary == Some(s.(submissions := s.submissions + 1, version := s.version + 1))
  }

  lemma Included(cell: Cell, seen: Summary, t: Token, row: Row)
    requires Admissible(cell, Match(seen, t, row))
    ensures Includes(seen, Next(cell, Match(seen, t, row)).summary.value, row)
  {
    SmallestIsFirst(seen.meta.lexical + row.meta.lexical, LEXICAL_LIMIT);
    SmallestIsFirst(seen.meta.signals + row.meta.signals, SIGNAL_LIMIT);
    SmallestIsFirst(seen.meta.indicators + row.meta.indicators, INDICATOR_LIMIT);
  }

  /** The state before the newest one. */
  function Previous(h: History): State
    requires |h| >= 2
  {
    h[|h| - 2]
  }

  predicate EndsWith(steps: seq<Step>, step: ClusterStep) { steps != [] && steps[|steps| - 1] == Cluster(step) }

  lemma NewStores(h: History, steps: seq<Step>, e: EventId, f: nat, c: CandidateId, bucket: string, row: Row, now: nat, days: nat, t: Token)
    requires Run(h, steps) && EndsWith(steps, NewCandidate(e, f, c, bucket, row, now, days))
    requires e in Last(h).events && Last(h).events[e].owner.token == t
    ensures Founded(Previous(h), Last(h), c, t, row) && Dated(Last(h), e, row, now, days)
  {
    var x := RunTransaction(h, steps, |steps| - 1);
  }

  lemma JoinStores(h: History, steps: seq<Step>, e: EventId, f: nat, r: nat, c: CandidateId, row: Row, now: nat, days: nat, t: Token)
    requires Run(h, steps) && EndsWith(steps, JoinCandidate(e, f, r, c, row, now, days))
    requires e in Last(h).events && Last(h).events[e].owner.token == t
    ensures Joined(Previous(h), Last(h), c, t, row) && Dated(Last(h), e, row, now, days)
  {
    var x := RunTransaction(h, steps, |steps| - 1);
    Included(Previous(h).cells[c], x.cell.change.seen, t, row);
  }

  lemma RepeatStores(h: History, steps: seq<Step>, e: EventId, f: nat, r: nat, q: nat, c: CandidateId, t: Token)
    requires Run(h, steps) && EndsWith(steps, RepeatSubmission(e, f, r, q, c))
    requires e in Last(h).events && Last(h).events[e].owner.token == t
    ensures Recounted(Previous(h), Last(h), c, t)
  {
    var x := RunTransaction(h, steps, |steps| - 1);
    RepeatWrites(h[..|h| - 1], |steps| - 1, e, f, r, q, c);
    RepeatRecounts(Previous(h), x, c, x.cell.change.token);
  }

  lemma RepeatWrites(h: History, k: nat, e: EventId, f: nat, r: nat, q: nat, c: CandidateId)
    requires k < |h| && ClusterWriter.Enabled(h, k, RepeatSubmission(e, f, r, q, c))
    ensures var x := ClusterWriter.Writes(h, k, RepeatSubmission(e, f, r, q, c));
            && x.cell.Modify? && x.cell.candidate == c && x.cell.change.Repeat? && x.cell.change.token == h[k].events[e].owner.token
            && x.event.Some? && x.event.value.0 == e && x.event.value.1.owner == h[k].events[e].owner
  {
  }

  lemma RepeatRecounts(s: State, x: Transaction, c: CandidateId, t: Token)
    requires Sound(s, x) && x.cell.Modify? && x.cell.candidate == c && x.cell.change.Repeat? && x.cell.change.token == t
    ensures Recounted(s, Apply(s, x), c, t)
  {
  }

  lemma NewCounts(e: EventId, seen: Event, c: CandidateId, bucket: string, row: Row)
    ensures Ensures(NewGuard(e, seen, c), Creating(e, seen, c, bucket, row), CountsFor(e, c, seen.owner.token))
  {
  }

  lemma JoinCounts(e: EventId, seen: Event, c: CandidateId, summary: Summary, row: Row)
    ensures Ensures(JoinGuard(e, seen, c, summary.version), Joining(e, seen, c, summary, row), CountsFor(e, c, seen.owner.token))
  {
  }

  lemma RepeatCounts(e: EventId, seen: Event, c: CandidateId, summary: Summary, row: Row)
    ensures Ensures(RepeatGuard(e, seen, c, summary.version, row), Repeating(e, seen, c, summary, row), CountsFor(e, c, seen.owner.token))
  {
  }

  // ---------------------------------------------------------------- the worker

  method CreateCandidate(store: Store, e: EventId, seen: Event, c: CandidateId, bucket: string, row: Row, now: nat, days: nat, ghost f: nat)
      returns (delivery: Delivery)
    requires store.Valid() && SawEvent(store.h, f, e, seen) && row.submissions == 1 && row.vectorApplied && UsableVector(row.vector)
    requires row.expiresAt == Deadline(seen.owner.period, now, seen.expiresAt, days) && now < row.expiresAt
    modifies store
    ensures store.Valid() && store.Continues() && (delivery.CandidateCreated? || delivery.Refused?)
    ensures delivery.CandidateCreated? ==> CountsFor(e, c, seen.owner.token)(store.state)
    ensures delivery.CandidateCreated? ==> |store.h| >= 2 && Founded(Previous(store.h), store.state, c, seen.owner.token, row)
    ensures delivery.CandidateCreated? ==> Dated(store.state, e, row, now, days)
  {
    NewRefines(store.h, e, f, seen, c, bucket, row, now, days);
    NewCounts(e, seen, c, bucket, row);
    var answer := store.Commit(NewGuard(e, seen, c), Creating(e, seen, c, bucket, row), CountsFor(e, c, seen.owner.token),
                            Cluster(NewCandidate(e, f, c, bucket, row, now, days)));
    EventStays(store.h, store.steps, f, e);
    if answer.Committed? { NewStores(store.h, store.steps, e, f, c, bucket, row, now, days, seen.owner.token); }
    delivery := if answer.Committed? then CandidateCreated else Refused;
  }

  method Join(store: Store, e: EventId, seen: Event, c: CandidateId, summary: Summary, row: Row, now: nat, days: nat, ghost f: nat, ghost r: nat)
      returns (delivery: Delivery)
    requires store.Valid() && SawCandidate(store.h, f, r, e, seen, c, summary)
    requires row.submissions == 1 && row.vectorApplied && UsableVector(row.vector)
    requires row.expiresAt == Deadline(seen.owner.period, now, seen.expiresAt, days) && now < row.expiresAt
    modifies store
    ensures store.Valid() && store.Continues() && (delivery.Matched? || delivery.Refused?)
    ensures delivery.Matched? ==> CountsFor(e, c, seen.owner.token)(store.state)
    ensures delivery.Matched? ==> |store.h| >= 2 && Joined(Previous(store.h), store.state, c, seen.owner.token, row)
    ensures delivery.Matched? ==> Dated(store.state, e, row, now, days)
  {
    JoinRefines(store.h, e, f, r, seen, c, summary, row, now, days);
    JoinCounts(e, seen, c, summary, row);
    var answer := store.Commit(JoinGuard(e, seen, c, summary.version), Joining(e, seen, c, summary, row),
                            CountsFor(e, c, seen.owner.token), Cluster(JoinCandidate(e, f, r, c, row, now, days)));
    EventStays(store.h, store.steps, f, e);
    if answer.Committed? { JoinStores(store.h, store.steps, e, f, r, c, row, now, days, seen.owner.token); }
    delivery := if answer.Committed? then Matched else Refused;
  }

  method RecordRepeat(store: Store, e: EventId, seen: Event, c: CandidateId, summary: Summary, existing: Row, ghost f: nat, ghost r: nat, ghost q: nat)
      returns (delivery: Delivery)
    requires store.Valid() && SawCandidate(store.h, f, r, e, seen, c, summary) && r <= q < |store.h| && c in store.h[q].cells
    requires seen.owner.token in store.h[q].cells[c].rows && store.h[q].cells[c].rows[seen.owner.token] == existing
    modifies store
    ensures store.Valid() && store.Continues() && (delivery.CountedRepeat? || delivery.Refused?)
    ensures delivery.CountedRepeat? ==> CountsFor(e, c, seen.owner.token)(store.state)
    ensures delivery.CountedRepeat? ==> |store.h| >= 2 && Recounted(Previous(store.h), store.state, c, seen.owner.token)
  {
    RepeatRefines(store.h, e, f, r, q, seen, c, summary, existing);
    RepeatCounts(e, seen, c, summary, existing);
    var answer := store.Commit(RepeatGuard(e, seen, c, summary.version, existing), Repeating(e, seen, c, summary, existing),
                               CountsFor(e, c, seen.owner.token), Cluster(RepeatSubmission(e, f, r, q, c)));
    EventStays(store.h, store.steps, f, e);
    if answer.Committed? { RepeatStores(store.h, store.steps, e, f, r, q, c, seen.owner.token); }
    delivery := if answer.Committed? then CountedRepeat else Refused;
  }

  method RepeatOrCap(store: Store, e: EventId, seen: Event, c: CandidateId, summary: Summary, existing: Row, ghost f: nat, ghost r: nat, ghost q: nat)
      returns (delivery: Delivery)
    requires store.Valid() && SawCandidate(store.h, f, r, e, seen, c, summary) && r <= q < |store.h| && c in store.h[q].cells
    requires seen.owner.token in store.h[q].cells[c].rows && store.h[q].cells[c].rows[seen.owner.token] == existing
    modifies store
    ensures store.Valid() && store.Continues() && (delivery.Capped? || delivery.CountedRepeat? || delivery.Refused?)
    ensures delivery.CountedRepeat? ==> CountsFor(e, c, seen.owner.token)(store.state)
    ensures delivery.CountedRepeat? ==> |store.h| >= 2 && Recounted(Previous(store.h), store.state, c, seen.owner.token)
    ensures delivery.Capped? ==> OutcomeIs(e, ContributorCapped)(store.state)
  {
    if existing.submissions >= MAX_SUBMISSIONS {
      CapRefines(store.h, e, f, r, q, seen, c, summary);
      var answer := store.Commit(CapGuard(e, seen, c, summary.version), Capping(e), OutcomeIs(e, ContributorCapped),
                                 Cluster(CapSubmission(e, f, r, q, c)));
      delivery := if answer.Committed? then Capped else Refused;
    } else {
      delivery := RecordRepeat(store, e, seen, c, summary, existing, f, r, q);
    }
  }

  // ---------------------------------------------------------------- the choice of a candidate

  /** A candidate as it was read. */
  datatype Loaded = Loaded(id: CandidateId, bucket: string, summary: Summary)

  ghost predicate LoadedAt(h: History, f: nat, r: nat, e: EventId, seen: Event, load: Loaded) {
    SawCandidate(h, f, r, e, seen, load.id, load.summary) && h[r].cells[load.id].bucket == load.bucket
  }

  ghost predicate NotThere(h: History, f: nat, r: nat, c: CandidateId, period: nat) {
    f <= r < |h| && !(c in h[r].cells && h[r].cells[c].summary.Some? && h[r].cells[c].period == period)
  }

  ghost predicate EachLoaded(h: History, f: nat, e: EventId, seen: Event, loads: seq<Loaded>, times: seq<nat>) {
    |times| == |loads| && forall i :: 0 <= i < |loads| ==> LoadedAt(h, f, times[i], e, seen, loads[i])
  }

  ghost predicate Covered(h: History, f: nat, period: nat, c: CandidateId, loads: seq<Loaded>, gone: map<CandidateId, nat>) {
    (exists i :: 0 <= i < |loads| && loads[i].id == c) || (c in gone && NotThere(h, f, gone[c], c, period))
  }

  /** Every candidate listed was read once, each at its own time: it was loaded, or there was none. */
  ghost predicate LoadedAll(h: History, f: nat, e: EventId, seen: Event, listed: seq<CandidateId>, loads: seq<Loaded>, times: seq<nat>, gone: map<CandidateId, nat>) {
    && EachLoaded(h, f, e, seen, loads, times)
    && (forall i :: 0 <= i < |loads| ==> loads[i].id in listed)
    && (forall c :: c in listed ==> Covered(h, f, seen.owner.period, c, loads, gone))
  }

  function LoadIn(s: State, c: CandidateId, period: nat): Option<Loaded> {
    if c in s.cells && s.cells[c].summary.Some? && s.cells[c].period == period then Some(Loaded(c, s.cells[c].bucket, s.cells[c].summary.value)) else None
  }

  lemma CoveredLater(h: History, h': History, f: nat, period: nat, c: CandidateId, loads: seq<Loaded>, gone: map<CandidateId, nat>)
    requires h <= h' && Covered(h, f, period, c, loads, gone)
    ensures Covered(h', f, period, c, loads, gone)
  {
  }

  lemma CoveredMore(h: History, f: nat, period: nat, c: CandidateId, loads: seq<Loaded>, gone: map<CandidateId, nat>, load: Loaded)
    requires Covered(h, f, period, c, loads, gone) || c == load.id
    ensures Covered(h, f, period, c, loads + [load], gone)
  {
    if i :| 0 <= i < |loads| && loads[i].id == c {
      assert (loads + [load])[i].id == c;
    } else if c == load.id {
      assert (loads + [load])[|loads|].id == c;
    }
  }

  lemma GoneMore(h: History, f: nat, period: nat, c: CandidateId, loads: seq<Loaded>, gone: map<CandidateId, nat>, d: CandidateId, at: nat)
    requires NotThere(h, f, at, d, period) && (c == d || Covered(h, f, period, c, loads, gone))
    ensures Covered(h, f, period, c, loads, gone[d := at])
  {
  }

  lemma EachLoadedLater(h: History, h': History, f: nat, e: EventId, seen: Event, loads: seq<Loaded>, times: seq<nat>)
    requires h <= h' && EachLoaded(h, f, e, seen, loads, times)
    ensures EachLoaded(h', f, e, seen, loads, times)
  {
  }

  lemma LoadedLater(h: History, h': History, f: nat, e: EventId, seen: Event, listed: seq<CandidateId>, loads: seq<Loaded>, times: seq<nat>, gone: map<CandidateId, nat>)
    requires h <= h' && LoadedAll(h, f, e, seen, listed, loads, times, gone)
    ensures LoadedAll(h', f, e, seen, listed, loads, times, gone)
  {
    EachLoadedLater(h, h', f, e, seen, loads, times);
    forall c | c in listed ensures Covered(h', f, seen.owner.period, c, loads, gone) {
      CoveredLater(h, h', f, seen.owner.period, c, loads, gone);
    }
  }

  lemma LoadedNow(h: History, f: nat, e: EventId, seen: Event, c: CandidateId, load: Loaded)
    requires h != [] && f < |h| && SawEvent(h, f, e, seen) && LoadIn(Last(h), c, seen.owner.period) == Some(load)
    ensures LoadedAt(h, f, |h| - 1, e, seen, load) && load.id == c
  {
  }

  lemma NotThereNow(h: History, f: nat, c: CandidateId, period: nat)
    requires h != [] && f < |h| && LoadIn(Last(h), c, period).None?
    ensures NotThere(h, f, |h| - 1, c, period)
  {
  }

  /** One more candidate of the listing has been read. */
  lemma LoadedMore(h: History, f: nat, e: EventId, seen: Event, listed: seq<CandidateId>, c: CandidateId, loads: seq<Loaded>, times: seq<nat>,
                   gone: map<CandidateId, nat>)
    requires h != [] && f < |h| && SawEvent(h, f, e, seen) && LoadedAll(h, f, e, seen, listed, loads, times, gone)
    ensures match LoadIn(Last(h), c, seen.owner.period)
            case Some(load) => LoadedAll(h, f, e, seen, listed + [c], loads + [load], times + [|h| - 1], gone)
            case None => LoadedAll(h, f, e, seen, listed + [c], loads, times, gone[c := |h| - 1])
  {
    var period := seen.owner.period;
    match LoadIn(Last(h), c, period)
    case Some(load) =>
      LoadedNow(h, f, e, seen, c, load);
      forall d | d in listed + [c] ensures Covered(h, f, period, d, loads + [load], gone) { CoveredMore(h, f, period, d, loads, gone, load); }
    case None =>
      NotThereNow(h, f, c, period);
      forall d | d in listed + [c] ensures Covered(h, f, period, d, loads, gone[c := |h| - 1]) {
        GoneMore(h, f, period, d, loads, gone, c, |h| - 1);
      }
  }

  /** One strong read for each candidate of the listing. */
  method LoadCandidates(store: Store, e: EventId, seen: Event, listed: seq<CandidateId>, ghost f: nat)
      returns (loads: seq<Loaded>, ghost times: seq<nat>, ghost gone: map<CandidateId, nat>)
    requires store.Valid() && SawEvent(store.h, f, e, seen)
    modifies store
    ensures store.Valid() && store.Continues() && store.own == old(store.own)
    ensures LoadedAll(store.h, f, e, seen, listed, loads, times, gone)
  {
    loads, times, gone := [], [], map[];
    var n := 0;
    while n < |listed|
      invariant store.Valid() && store.Continues() && store.own == old(store.own) && n <= |listed|
      invariant LoadedAll(store.h, f, e, seen, listed[..n], loads, times, gone)
    {
      ghost var before := store.h;
      store.Interfere();
      var load := LoadIn(store.state, listed[n], seen.owner.period);
      LoadedLater(before, store.h, f, e, seen, listed[..n], loads, times, gone);
      LoadedMore(store.h, f, e, seen, listed[..n], listed[n], loads, times, gone);
      assert listed[..n + 1] == listed[..n] + [listed[n]];
      if load.Some? {
        loads, times := loads + [load.value], times + [|store.h| - 1];
      } else {
        gone := gone[listed[n] := |store.h| - 1];
      }
      n := n + 1;
    }
    assert listed[..n] == listed;
  }

  function ProfileOf(load: Loaded): Profile { Profile(load.bucket, load.summary.centroid, load.summary.meta) }

  function Scores(norm: seq<real> -> real, p: Profile, loads: seq<Loaded>): seq<real> {
    seq(|loads|, i requires 0 <= i < |loads| => Score(norm, p, ProfileOf(loads[i])))
  }

  /** What was loaded and which of it was chosen. */
  datatype Choice = Choice(loads: seq<Loaded>, times: seq<nat>, gone: map<CandidateId, nat>, best: Option<nat>)

  /** The candidate an event is counted for. */
  function Target(choice: Choice, fallback: CandidateId): CandidateId {
    if choice.best.Some? && choice.best.value < |choice.loads| then choice.loads[choice.best.value].id else fallback
  }

  /** Everything listed was loaded, and the choice is the first of those that resemble the feature most,
      if it does so enough. */
  ghost function ChosenFrom(norm: seq<real> -> real, p: Profile, listed: seq<CandidateId>, e: EventId, seen: Event, f: nat): (History, Choice) -> bool {
    (h: History, choice: Choice) =>
      LoadedAll(h, f, e, seen, listed, choice.loads, choice.times, choice.gone) && Chosen(Scores(norm, p, choice.loads), choice.best)
  }

  /** The first of those that resemble the feature most, if it does so enough. */
  method Choose(norm: seq<real> -> real, p: Profile, loads: seq<Loaded>) returns (choice: Option<nat>)
    ensures Chosen(Scores(norm, p, loads), choice)
  {
    var best: Option<nat> := None;
    var score := 0.0;
    var n := 0;
    while n < |loads|
      invariant n <= |loads| && (best.None? ==> n == 0)
      invariant best.Some? ==> best.value < n && score == Scores(norm, p, loads)[best.value]
      invariant best.Some? ==> forall i :: 0 <= i < n ==> Scores(norm, p, loads)[i] <= score
      invariant best.Some? ==> forall i :: 0 <= i < best.value ==> Scores(norm, p, loads)[i] < score
    {
      var next := Score(norm, p, ProfileOf(loads[n]));
      if best.None? || next > score { best, score := Some(n), next; }
      n := n + 1;
    }
    choice := if best.Some? && score >= THRESHOLD then best else None;
  }

  lemma EventStays(h: History, steps: seq<Step>, f: nat, e: EventId)
    requires Run(h, steps) && f < |h| && e in h[f].events
    ensures e in Last(h).events && Last(h).events[e].owner == h[f].events[e].owner
  {
    RunEvolves(h, steps, f, |h| - 1);
  }

  /** What a delivery that counts has written, by its report. */
  ghost predicate Stored(h: History, delivery: Delivery, e: EventId, c: CandidateId, t: Token, row: Row, now: nat, days: nat) {
    delivery.Counts() ==>
      && |h| >= 2
      && (delivery.CandidateCreated? ==> Founded(Previous(h), Last(h), c, t, row) && Dated(Last(h), e, row, now, days))
      && (delivery.Matched? ==> Joined(Previous(h), Last(h), c, t, row) && Dated(Last(h), e, row, now, days))
      && (delivery.CountedRepeat? ==> Recounted(Previous(h), Last(h), c, t))
  }

  method Contribute(store: Store, e: EventId, seen: Event, c: CandidateId, summary: Summary, row: Row, now: nat, days: nat, ghost f: nat, ghost r: nat)
      returns (delivery: Delivery)
    requires store.Valid() && SawCandidate(store.h, f, r, e, seen, c, summary)
    requires row.submissions == 1 && row.vectorApplied && UsableVector(row.vector)
    requires row.expiresAt == Deadline(seen.owner.period, now, seen.expiresAt, days)
    modifies store
    ensures store.Valid() && store.Continues() && !delivery.CandidateCreated? && (delivery.Counts() || delivery.Capped? || delivery.Refused?)
    ensures delivery.Counts() ==> CountsFor(e, c, seen.owner.token)(store.state)
    ensures Stored(store.h, delivery, e, c, seen.owner.token, row, now, days)
    ensures delivery.Capped? ==> OutcomeIs(e, ContributorCapped)(store.state)
  {
    store.Interfere();
    ghost var q := |store.h| - 1;
    CandidateStays(store.h, store.steps, r, c);
    var rows := RowsOf(store.state, c);
    if seen.owner.token in rows {
      delivery := RepeatOrCap(store, e, seen, c, summary, rows[seen.owner.token], f, r, q);
    } else if row.expiresAt <= now {
      delivery := Refused;
    } else {
      delivery := Join(store, e, seen, c, summary, row, now, days, f, r);
    }
  }

  function IdOf(target: Option<Loaded>, fallback: CandidateId): CandidateId {
    if target.Some? then target.value.id else fallback
  }

  /** Counts the event in the candidate that was chosen, or founds one. */
  method CountIn(store: Store, e: EventId, seen: Event, target: Option<Loaded>, fallback: CandidateId, bucket: string, row: Row, now: nat, days: nat,
                 ghost f: nat, ghost r: nat) returns (delivery: Delivery)
    requires store.Valid() && SawEvent(store.h, f, e, seen) && (target.Some? ==> LoadedAt(store.h, f, r, e, seen, target.value))
    requires row.submissions == 1 && row.vectorApplied && UsableVector(row.vector)
    requires row.expiresAt == Deadline(seen.owner.period, now, seen.expiresAt, days)
    modifies store
    ensures store.Valid() && store.Continues() && (delivery.Counts() || delivery.Capped? || delivery.Refused?)
    ensures delivery.Counts() ==> CountsFor(e, IdOf(target, fallback), seen.owner.token)(store.state)
    ensures Stored(store.h, delivery, e, IdOf(target, fallback), seen.owner.token, row, now, days)
    ensures delivery.Counts() || delivery.Capped? ==> (delivery.CandidateCreated? <==> target.None?)
    ensures delivery.Capped? ==> OutcomeIs(e, ContributorCapped)(store.state)
  {
    if target.Some? {
      delivery := Contribute(store, e, seen, target.value.id, target.value.summary, row, now, days, f, r);
    } else if row.expiresAt <= now {
      delivery := Refused;
    } else {
      delivery := CreateCandidate(store, e, seen, fallback, bucket, row, now, days, f);
    }
  }

  /** Chooses among the candidates listed, and counts the event there or founds a candidate. */
  method ChooseAndCount(store: Store, e: EventId, seen: Event, feature: Feature, row: Row, norm: seq<real> -> real, listed: seq<CandidateId>,
                        fallback: CandidateId, bucket: string, now: nat, days: nat, ghost f: nat)
      returns (delivery: Delivery, ghost choice: Choice)
    requires store.Valid() && SawEvent(store.h, f, e, seen) && row == RowOf(feature, Deadline(seen.owner.period, now, seen.expiresAt, days))
    requires UsableVector(feature.vector)
    modifies store
    ensures store.Valid() && store.Continues() && (delivery.Counts() || delivery.Capped? || delivery.Refused?)
    ensures ChosenFrom(norm, Profile(bucket, feature.vector, feature.meta), listed, e, seen, f)(store.h, choice)
    ensures delivery.Counts() ==> CountsFor(e, Target(choice, fallback), seen.owner.token)(store.state)
    ensures Stored(store.h, delivery, e, Target(choice, fallback), seen.owner.token, row, now, days)
    ensures delivery.Counts() || delivery.Capped? ==> (delivery.CandidateCreated? <==> choice.best.None?)
    ensures delivery.Capped? ==> OutcomeIs(e, ContributorCapped)(store.state)
  {
    var loads;
    ghost var times, gone;
    loads, times, gone := LoadCandidates(store, e, seen, listed, f);
    var best := Choose(norm, Profile(bucket, feature.vector, feature.meta), loads);
    choice := Choice(loads, times, gone, best);
    ghost var before := store.h;
    delivery := CountIn(store, e, seen, if best.Some? then Some(loads[best.value]) else None, fallback, bucket, row, now, days, f,
                        if best.Some? then times[best.value] else f);
    LoadedLater(before, store.h, f, e, seen, listed, loads, times, gone);
  }

  /** Reads the event, the period's registry, the tombstone and the event's outcome. */
  method Admit(store: Store, e: EventId, now: nat) returns (refusal: Option<Delivery>, seen: Event, ghost f: nat)
    requires store.Valid()
    modifies store
    ensures store.Valid() && store.Continues() && store.own == old(store.own)
    ensures if refusal.Some? then !refusal.value.Counts() && !refusal.value.Capped?
            else SawEvent(store.h, f, e, seen) && seen.expiresAt > now
  {
    store.Interfere();
    f, seen := |store.h| - 1, Event(Partition(0, 0), 0, false, None);
    if e !in store.state.events || !store.state.events[e].feature { return Some(Missing), seen, f; }
    seen := store.state.events[e];
    if seen.expiresAt <= now { return Some(Ignored), seen, f; }
    if seen.owner.period in store.state.closing { return Some(Refused), seen, f; }
    store.Interfere();
    if PartOf(store.state, seen.owner).tombstone.Some? { return Some(Ignored), seen, f; }
    store.Interfere();
    EventStays(store.h, store.steps, f, e);
    refusal := if store.state.events[e].clustered.Some? then Some(Duplicate) else None;
  }

  /** A new contribution holds what the feature brings, and a new candidate describes it alone; an old one that
      is joined includes it, and a repeat only counts one submission more. */
  ghost predicate StoredFeature(h: History, delivery: Delivery, e: EventId, c: CandidateId, t: Token, feature: Feature, now: nat, days: nat) {
    delivery.Counts() ==>
      && |h| >= 2 && e in Last(h).events && c in Last(h).cells && t in Last(h).cells[c].rows
      && var row := Last(h).cells[c].rows[t];
      && (delivery.CandidateCreated? || delivery.Matched? ==> Holds(row, feature, Last(h).events[e], now, days))
      && (delivery.CandidateCreated? ==> Founded(Previous(h), Last(h), c, t, row))
      && (delivery.Matched? ==> Joined(Previous(h), Last(h), c, t, row))
      && (delivery.CountedRepeat? ==> Recounted(Previous(h), Last(h), c, t))
  }

  lemma FeatureStored(h: History, delivery: Delivery, e: EventId, c: CandidateId, t: Token, feature: Feature, row: Row, now: nat, days: nat)
    requires h != [] && e in Last(h).events && Stored(h, delivery, e, c, t, row, now, days) && row == RowOf(feature, row.expiresAt)
    ensures StoredFeature(h, delivery, e, c, t, feature, now, days)
  {
    if delivery.CandidateCreated? || delivery.Matched? { RowHolds(Last(h), e, feature, row, now, days); }
  }

  /** One delivery: nothing, a repeat, a new contribution, or a new candidate. An event is counted for
      the candidate that resembles it most, and a candidate is founded only when none does enough. */
  method ProcessMessage(store: Store, e: EventId, feature: Feature, norm: seq<real> -> real, listed: seq<CandidateId>, fallback: CandidateId,
                        bucket: string, now: nat, days: nat)
      returns (delivery: Delivery, ghost seen: Event, ghost f: nat, ghost choice: Choice)
    requires store.Valid() && UsableVector(feature.vector)
    modifies store
    ensures store.Valid() && store.Continues()
    ensures delivery.Counts() || delivery.Capped? ==>
              && e in store.state.events && store.state.events[e].owner == seen.owner
              && ChosenFrom(norm, Profile(bucket, feature.vector, feature.meta), listed, e, seen, f)(store.h, choice)
              && (delivery.CandidateCreated? <==> choice.best.None?)
    ensures delivery.Counts() ==> CountsFor(e, Target(choice, fallback), seen.owner.token)(store.state)
    ensures StoredFeature(store.h, delivery, e, Target(choice, fallback), seen.owner.token, feature, now, days)
    ensures delivery.Capped? ==> OutcomeIs(e, ContributorCapped)(store.state)
  {
    var refusal, event;
    refusal, event, f := Admit(store, e, now);
    seen, choice := event, Choice([], [], map[], None);
    if refusal.Some? { delivery := refusal.value; return; }
    var row := RowOf(feature, Deadline(event.owner.period, now, event.expiresAt, days));
    delivery, choice := ChooseAndCount(store, e, event, feature, row, norm, listed, fallback, bucket, now, days, f);
    EventStays(store.h, store.steps, f, e);
    FeatureStored(store.h, delivery, e, Target(choice, fallback), event.owner.token, feature, row, now, days);
  }
}
