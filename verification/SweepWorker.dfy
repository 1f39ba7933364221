/** The bounded sweep of one contributor's locators: each step reads the durable traversal state,
    does one thing, and moves the state by compare-and-set in the same transaction. */
module SweepWorker {
  import opened Basics
  import opened Candidate
  import opened CandidateSteps
  import opened Table
  import opened Observations
  import opened Fences
  import opened Store
  import opened Protocol
  import opened RecomputeWorker
  import opened Erasure
  import opened RepairedRuns
  import Traversal

  type History = Observations.History
  type Step = Protocol.Step

  datatype Progress = Moved | Deleted | Recomputed | PassEnded | Stopped

  function Fence(s: State, p: Partition): Option<Tombstone> { PartOf(s, p).tombstone }

  /** A traversal step on this period, or a piece of repair, which starts over only with this call's clock
      reading. */
  predicate TurnOf(step: Step, w: Worker, period: nat, readings: set<nat>) {
    || (step.Traverse? && step.traverse.worker == w && step.traverse.period == period)
    || (step.Mend? && PieceOf(step.mend, w, step.mend.candidate, readings))
  }

  /** Since then the worker has committed such steps and nothing else. */
  ghost predicate Turns(own: seq<Step>, from: nat, w: Worker, period: nat, readings: set<nat>) {
    forall i :: from <= i < |own| ==> TurnOf(own[i], w, period, readings)
  }

  /** Whatever else the worker has committed since, its recomputations started over only with such a reading. */
  ghost predicate Readings(own: seq<Step>, from: nat, w: Worker, readings: set<nat>) {
    forall i :: from <= i < |own| && own[i].Mend? ==> PieceOf(own[i].mend, w, own[i].mend.candidate, readings)
  }

  lemma AtMostOneTurn(before: seq<Step>, own: seq<Step>, w: Worker, period: nat, step: Step)
    requires TurnOf(step, w, period, {}) && (own == before || own == before + [step])
    ensures Turns(own, |before|, w, period, {})
  {
  }

  lemma TurnsAdd(first: seq<Step>, own: seq<Step>, from: nat, w: Worker, period: nat, readings: set<nat>)
    requires first <= own && from <= |first| && Turns(first, from, w, period, readings)
    requires Turns(own, |first|, w, period, readings) || Turns(own, |first|, w, period, {})
    ensures Turns(own, from, w, period, readings)
  {
    assert forall i :: from <= i < |first| ==> own[i] == first[i];
  }

  // ---------------------------------------------------------------- reading locators

  predicate IsFirst(l: set<LocatorKey>, key: LocatorKey) {
    key in l && forall other :: other in l ==> other == key || KeyLess(key, other)
  }

  lemma FirstBefore(l: set<LocatorKey>, key: LocatorKey, other: LocatorKey)
    requires IsFirst(l, key) && other in l
    ensures other == key || KeyLess(key, other)
  {
  }

  lemma {:induction false} FirstExists(l: set<LocatorKey>) returns (key: LocatorKey)
    requires l != {}
    ensures IsFirst(l, key)
    decreases |l|
  {
    key :| key in l;
    if l != {key} {
      assert |l - {key}| < |l| && l - {key} != {};
      var first := FirstExists(l - {key});
      assert forall other :: other in l ==> other == key || other in l - {key};
      key := if KeyLess(key, first) then key else first;
    }
  }

  function Behind(l: map<LocatorKey, nat>, cursor: Option<LocatorKey>): set<LocatorKey> {
    set key | key in l && (cursor.Some? ==> KeyLess(cursor.value, key))
  }

  /** A page of at most one owned locator, and its continuation. */
  method NextLocator(l: map<LocatorKey, nat>, cursor: Option<LocatorKey>) returns (found: Option<Locator>, next: Option<LocatorKey>)
    ensures found.Some? ==> Traversal.FirstLocator(l, cursor, found.value, next)
    ensures found.None? ==> Traversal.NoLocatorAfter(l, cursor)
  {
    if Behind(l, cursor) == {} {
      assert forall key :: key in l ==> key !in Behind(l, cursor);
      return None, None;
    }
    ghost var first := FirstExists(Behind(l, cursor));
    var key :| key in Behind(l, cursor) && IsFirst(Behind(l, cursor), key);
    found, next := Some(Locator(key, l[key])), Some(key);
    forall other | other in l && (cursor.Some? ==> KeyLess(cursor.value, other)) ensures other == key || KeyLess(key, other) {
      assert other in Behind(l, cursor);
      FirstBefore(Behind(l, cursor), key, other);
    }
  }

  // ---------------------------------------------------------------- conditions and writes

  /** The command is live, and the tombstone is at the revision that was read. */
  predicate RevisionIs(s: State, w: Worker, p: Partition, tomb: Tombstone) {
    CommandLive(s, w) && Fence(s, p).Some? && Fence(s, p).value.deadline == tomb.deadline
    && Fence(s, p).value.cleanupRevision == tomb.cleanupRevision
  }

  function AtRevision(w: Worker, p: Partition, tomb: Tombstone): State -> bool { s => RevisionIs(s, w, p, tomb) }

  /** The update sets the traversal state and its revision and nothing else of the tombstone. */
  function Moving(p: Partition, next: Cleanup): State --> Transaction {
    (s: State) requires Fence(s, p).Some? => NO_WRITES.(fence := Some((p, Traversal.Moved(Fence(s, p).value, next))))
  }

  ghost predicate HasFence(h: History, r: nat, p: Partition, tomb: Tombstone) {
    FenceSeen(h, r, p) && FenceAt(h, r, p) == tomb
  }

  lemma MoveRefines(h: History, w: Worker, period: nat, r: nat, q: nat, tomb: Tombstone, next: Cleanup)
    requires r <= q < |h| && HasFence(h, r, OwnPartition(w, period), tomb)
    requires Traversal.CleanupMove(h, q, r, q, OwnPartition(w, period), w.operation, next)
    requires Traversal.Earned(h, r, q, OwnPartition(w, period), w.operation)
    ensures AlwaysRefines(h, AtRevision(w, OwnPartition(w, period), tomb), Moving(OwnPartition(w, period), next),
                          Traverse(Traversal.MoveCleanup(w, period, r, q, next)))
  {
  }

  function TraversalIs(p: Partition, next: Cleanup): State -> bool {
    (s: State) => Fence(s, p).Some? && Fence(s, p).value.cleanup == Some(next)
  }

  lemma MoveArrives(w: Worker, p: Partition, tomb: Tombstone, next: Cleanup)
    ensures Ensures(AtRevision(w, p, tomb), Moving(p, next), TraversalIs(p, next))
  {
  }

  /** A transaction of the traversal. */
  method CommitTurn(store: Store, guard: State -> bool, writes: State --> Transaction, ghost claim: State -> bool, w: Worker, period: nat,
                    ghost travel: Traversal.TraversalStep) returns (answer: Answer)
    requires store.Valid() && AlwaysRefines(store.h, guard, writes, Traverse(travel)) && Ensures(guard, writes, claim)
    requires travel.worker == w && travel.period == period
    modifies store
    ensures store.Valid() && store.Continues() && Turns(store.own, |old(store.own)|, w, period, {})
    ensures answer.Committed? ==> claim(store.state) && store.steps != [] && store.steps[|store.steps| - 1] == Traverse(travel)
  {
    answer := store.Commit(guard, writes, claim, Traverse(travel));
    AtMostOneTurn(old(store.own), store.own, w, period, Traverse(travel));
  }

  method Move(store: Store, w: Worker, period: nat, tomb: Tombstone, next: Cleanup, ghost r: nat, ghost q: nat) returns (answer: Answer)
    requires store.Valid() && r <= q < |store.h| && HasFence(store.h, r, OwnPartition(w, period), tomb)
    requires Traversal.CleanupMove(store.h, q, r, q, OwnPartition(w, period), w.operation, next)
    requires Traversal.Earned(store.h, r, q, OwnPartition(w, period), w.operation)
    modifies store
    ensures store.Valid() && store.Continues() && Turns(store.own, |old(store.own)|, w, period, {})
    ensures answer.Committed? ==> TraversalIs(OwnPartition(w, period), next)(store.state)
  {
    MoveRefines(store.h, w, period, r, q, tomb, next);
    MoveArrives(w, OwnPartition(w, period), tomb, next);
    answer := CommitTurn(store, AtRevision(w, OwnPartition(w, period), tomb), Moving(OwnPartition(w, period), next),
                         TraversalIs(OwnPartition(w, period), next), w, period, Traversal.MoveCleanup(w, period, r, q, next));
  }

  // ---------------------------------------------------------------- erasing

  predicate EvidenceFits(seen: Option<Summary>, aggregate: Option<Aggregate>) {
    seen.Some? && !seen.value.phase.Open? ==> (seen.value.phase.Published? <==> aggregate.Some?)
  }

  /** The pair exactly as observed, and the summary at its observed version or, once the candidate
      has left its open phase, exactly as observed together with its aggregate. */
  predicate EraseCondition(s: State, w: Worker, p: Partition, tomb: Tombstone, c: CandidateId, expiresAt: nat, present: bool,
                           seen: Option<Summary>, aggregate: Option<Aggregate>) {
    && RevisionIs(s, w, p, tomb) && c in s.cells
    && (if present then PairOwned(s, c, p.token, expiresAt) && s.cells[c].period == p.period
        else CandidateKey(c) !in PartOf(s, p).locators && p.token !in s.cells[c].rows && p.token !in s.cells[c].strays)
    && (seen.Some? ==>
         if seen.value.phase.Open? then OpenAtVersion(s, c, seen.value.version)
         else SummaryIs(s, c, seen.value) && s.cells[c].aggregate == aggregate)
  }

  function EraseGuard(w: Worker, p: Partition, tomb: Tombstone, c: CandidateId, expiresAt: nat, present: bool,
                      seen: Option<Summary>, aggregate: Option<Aggregate>): State -> bool {
    s => EraseCondition(s, w, p, tomb, c, expiresAt, present, seen, aggregate)
  }

  function ErasureOf(seen: Option<Summary>, t: Token): Change {
    if seen.None? then EraseOrphan(t) else if seen.value.phase.Final() then EraseFinal(t) else EraseLive(seen.value, t)
  }

  function Erasing(p: Partition, c: CandidateId, ch: Change, present: bool, next: Cleanup): State --> Transaction {
    (s: State) requires Fence(s, p).Some? =>
      NO_WRITES.(cell := Modify(c, ch), locator := if present then DropLocator(p, CandidateKey(c)) else NoLocator,
                 fence := Some((p, Traversal.Moved(Fence(s, p).value, next))))
  }

  ghost predicate HasPair(h: History, p: Partition, op: Operation, r: nat, q: nat, u: nat, tomb: Tombstone,
                          c: CandidateId, present: bool, seen: Option<Summary>) {
    && r <= q <= u < |h| && HasFence(h, r, p, tomb)
    && tomb.cleanup.Some? && tomb.cleanup.value.Delete? && tomb.cleanup.value.operation == op
    && tomb.cleanup.value.locator.key == CandidateKey(c)
    && c in h[u].cells && h[u].cells[c].summary == seen
    && (present <==> CandidateKey(c) in PartOf(h[q], p).locators)
    && (present ==> PartOf(h[q], p).locators[CandidateKey(c)] == tomb.cleanup.value.locator.expiresAt)
  }

  function AfterErasure(tomb: Tombstone): Cleanup
    requires tomb.cleanup.Some? && tomb.cleanup.value.Delete?
  {
    var d := tomb.cleanup.value;
    Recompute(d.operation, d.cursor, d.locator, d.nextCursor)
  }

  lemma EraseRefines(h: History, w: Worker, period: nat, r: nat, q: nat, u: nat, tomb: Tombstone,
                     c: CandidateId, present: bool, seen: Option<Summary>, aggregate: Option<Aggregate>)
    requires HasPair(h, OwnPartition(w, period), w.operation, r, q, u, tomb, c, present, seen) && EvidenceFits(seen, aggregate)
    ensures AlwaysRefines(h, EraseGuard(w, OwnPartition(w, period), tomb, c, tomb.cleanup.value.locator.expiresAt, present, seen, aggregate),
                          Erasing(OwnPartition(w, period), c, ErasureOf(seen, w.account), present, AfterErasure(tomb)),
                          Traverse(Traversal.EraseContribution(w, period, r, q, u)))
  {
    var p, expiresAt := OwnPartition(w, period), tomb.cleanup.value.locator.expiresAt;
    forall h': History | h <= h' && h' != [] && Coherent(h', |h'| - 1)
      ensures Refines(h', EraseGuard(w, p, tomb, c, expiresAt, present, seen, aggregate), Erasing(p, c, ErasureOf(seen, w.account), present, AfterErasure(tomb)),
                      Traverse(Traversal.EraseContribution(w, period, r, q, u)))
    {
      PairLater(h, h', p, w.operation, r, q, u, tomb, c, present, seen);
      EraseRefinesAt(h', w, period, r, q, u, tomb, c, present, seen, aggregate);
    }
  }

  lemma PairLater(h: History, h': History, p: Partition, op: Operation, r: nat, q: nat, u: nat, tomb: Tombstone,
                  c: CandidateId, present: bool, seen: Option<Summary>)
    requires h <= h' && HasPair(h, p, op, r, q, u, tomb, c, present, seen)
    ensures HasPair(h', p, op, r, q, u, tomb, c, present, seen)
  {
  }

  lemma EraseRefinesAt(h: History, w: Worker, period: nat, r: nat, q: nat, u: nat, tomb: Tombstone,
                       c: CandidateId, present: bool, seen: Option<Summary>, aggregate: Option<Aggregate>)
    requires h != [] && HasPair(h, OwnPartition(w, period), w.operation, r, q, u, tomb, c, present, seen) && EvidenceFits(seen, aggregate)
    ensures Refines(h, EraseGuard(w, OwnPartition(w, period), tomb, c, tomb.cleanup.value.locator.expiresAt, present, seen, aggregate),
                    Erasing(OwnPartition(w, period), c, ErasureOf(seen, w.account), present, AfterErasure(tomb)),
                    Traverse(Traversal.EraseContribution(w, period, r, q, u)))
  {
  }

  method EraseContribution(store: Store, w: Worker, period: nat, tomb: Tombstone, c: CandidateId, present: bool,
                           seen: Option<Summary>, ghost r: nat, ghost q: nat, ghost u: nat) returns (answer: Answer)
    requires store.Valid() && HasPair(store.h, OwnPartition(w, period), w.operation, r, q, u, tomb, c, present, seen)
    modifies store
    ensures store.Valid() && store.Continues() && Turns(store.own, |old(store.own)|, w, period, {})
    ensures answer.Committed? ==> store.steps != [] && ErasedBy(store.steps[|store.steps| - 1], w, period, tomb)
  {
    store.Interfere();
    var aggregate := AggregateIn(store.state, c);
    if seen.Some? && !seen.value.phase.Open? && seen.value.phase.Published? != aggregate.Some? { return Failed; }
    answer := CommitErase(store, w, period, tomb, c, present, seen, aggregate, r, q, u);
  }

  method CommitErase(store: Store, w: Worker, period: nat, tomb: Tombstone, c: CandidateId, present: bool, seen: Option<Summary>,
                     aggregate: Option<Aggregate>, ghost r: nat, ghost q: nat, ghost u: nat) returns (answer: Answer)
    requires store.Valid() && EvidenceFits(seen, aggregate)
    requires HasPair(store.h, OwnPartition(w, period), w.operation, r, q, u, tomb, c, present, seen)
    modifies store
    ensures store.Valid() && store.Continues() && Turns(store.own, |old(store.own)|, w, period, {})
    ensures answer.Committed? ==> store.steps != [] && ErasedBy(store.steps[|store.steps| - 1], w, period, tomb)
  {
    EraseRefines(store.h, w, period, r, q, u, tomb, c, present, seen, aggregate);
    answer := CommitTurn(store, EraseGuard(w, OwnPartition(w, period), tomb, c, tomb.cleanup.value.locator.expiresAt, present, seen, aggregate),
                         Erasing(OwnPartition(w, period), c, ErasureOf(seen, w.account), present, AfterErasure(tomb)), Whatever(),
                         w, period, Traversal.EraseContribution(w, period, r, q, u));
  }

  // ---------------------------------------------------------------- erasing an event's records

  predicate FeatureCondition(s: State, w: Worker, p: Partition, tomb: Tombstone, e: EventId, expiresAt: nat, present: bool) {
    && RevisionIs(s, w, p, tomb) && e in s.events
    && (if present then EventKey(e) in PartOf(s, p).locators && PartOf(s, p).locators[EventKey(e)] == expiresAt
        else EventKey(e) !in PartOf(s, p).locators && s.events[e] == WithoutRecords(s.events[e]))
  }

  function FeatureGuard(w: Worker, p: Partition, tomb: Tombstone, e: EventId, expiresAt: nat, present: bool): State -> bool {
    s => FeatureCondition(s, w, p, tomb, e, expiresAt, present)
  }

  function FeatureErasing(p: Partition, e: EventId, present: bool, next: Cleanup): State --> Transaction {
    (s: State) requires Fence(s, p).Some? && e in s.events =>
      NO_WRITES.(event := Some((e, WithoutRecords(s.events[e]))), locator := if present then DropLocator(p, EventKey(e)) else NoLocator,
                 fence := Some((p, Traversal.Moved(Fence(s, p).value, next))))
  }

  ghost predicate HasRecords(h: History, p: Partition, op: Operation, r: nat, q: nat, tomb: Tombstone, e: EventId, present: bool) {
    && r <= q < |h| && HasFence(h, r, p, tomb)
    && tomb.cleanup.Some? && tomb.cleanup.value.Delete? && tomb.cleanup.value.operation == op
    && tomb.cleanup.value.locator.key == EventKey(e)
    && (present <==> EventKey(e) in PartOf(h[q], p).locators)
    && (present ==> PartOf(h[q], p).locators[EventKey(e)] == tomb.cleanup.value.locator.expiresAt)
  }

  lemma FeatureRefines(h: History, w: Worker, period: nat, r: nat, q: nat, tomb: Tombstone, e: EventId, present: bool)
    requires HasRecords(h, OwnPartition(w, period), w.operation, r, q, tomb, e, present)
    ensures AlwaysRefines(h, FeatureGuard(w, OwnPartition(w, period), tomb, e, tomb.cleanup.value.locator.expiresAt, present),
                          FeatureErasing(OwnPartition(w, period), e, present, Seek(w.operation, tomb.cleanup.value.nextCursor)),
                          Traverse(Traversal.EraseFeature(w, period, r, q)))
  {
  }

  method EraseFeature(store: Store, w: Worker, period: nat, tomb: Tombstone, e: EventId, present: bool, ghost r: nat, ghost q: nat)
      returns (answer: Answer)
    requires store.Valid() && HasRecords(store.h, OwnPartition(w, period), w.operation, r, q, tomb, e, present)
    modifies store
    ensures store.Valid() && store.Continues() && Turns(store.own, |old(store.own)|, w, period, {})
    ensures answer.Committed? ==> store.steps != [] && ErasedBy(store.steps[|store.steps| - 1], w, period, tomb)
  {
    FeatureRefines(store.h, w, period, r, q, tomb, e, present);
    answer := CommitTurn(store, FeatureGuard(w, OwnPartition(w, period), tomb, e, tomb.cleanup.value.locator.expiresAt, present),
                         FeatureErasing(OwnPartition(w, period), e, present, Seek(w.operation, tomb.cleanup.value.nextCursor)), Whatever(),
                         w, period, Traversal.EraseFeature(w, period, r, q));
  }

  // ---------------------------------------------------------------- one step of the sweep

  lemma LocatedCandidate(h: History, steps: seq<Step>, r: nat, p: Partition)
    requires Run(h, steps) && FenceSeen(h, r, p)
    requires FenceAt(h, r, p).cleanup.Some? && !FenceAt(h, r, p).cleanup.value.Seek?
    requires FenceAt(h, r, p).cleanup.value.locator.key.CandidateKey?
    ensures FenceAt(h, r, p).cleanup.value.locator.key.candidate in Last(h).cells
    ensures FenceAt(h, r, p).cleanup.value.locator.key.candidate in h[r].cells
  {
    RunInv(h, steps, r);
    FenceKnown(h[r], p);
    CandidateStays(h, steps, r, FenceAt(h, r, p).cleanup.value.locator.key.candidate);
  }

  lemma FenceKnown(s: State, p: Partition)
    requires Table.Inv(s) && Fence(s, p).Some? && Fence(s, p).value.cleanup.Some?
    ensures KnownCleanup(s, p, Fence(s, p).value.cleanup.value)
  {
    assert p in s.parts;
  }

  lemma FenceStays(h: History, steps: seq<Step>, r: nat, p: Partition)
    requires Run(h, steps) && FenceSeen(h, r, p)
    ensures Fence(Last(h), p).Some?
  {
    FencedLocatorsShrink(h, steps, r, |h| - 1, p);
  }

  /** The partition was seen fenced and empty at this moment of the call. */
  ghost predicate SeenEmpty(h: History, p: Partition, at: nat) {
    at < |h| && Fence(h[at], p).Some? && PartOf(h[at], p).locators == map[]
  }

  method SeekStep(store: Store, w: Worker, period: nat, tomb: Tombstone, ghost r: nat) returns (progress: Progress, ghost at: nat)
    requires store.Valid() && HasFence(store.h, r, OwnPartition(w, period), tomb)
    requires tomb.cleanup.Some? && tomb.cleanup.value.Seek? && tomb.cleanup.value.operation == w.operation
    modifies store
    ensures store.Valid() && store.Continues() && Turns(store.own, |old(store.own)|, w, period, {})
    ensures progress.PassEnded? ==> |old(store.h)| <= at + 1 && SeenEmpty(store.h, OwnPartition(w, period), at)
    ensures progress.PassEnded? ==> TraversalIs(OwnPartition(w, period), Seek(w.operation, None))(store.state)
    ensures !progress.Recomputed?
  {
    at := 0;
    store.Interfere();
    ghost var q := |store.h| - 1;
    var p := OwnPartition(w, period);
    var cursor := tomb.cleanup.value.cursor;
    var found, next := NextLocator(PartOf(store.state, p).locators, cursor);
    if found.Some? {
      var answer := Move(store, w, period, tomb, Delete(w.operation, cursor, found.value, next), r, q);
      return if answer.Committed? then Progress.Moved else Stopped, 0;
    }
    // A restart from the beginning looks for anything inserted behind the cursor.
    store.Interfere();
    at := |store.h| - 1;
    FenceStays(store.h, store.steps, r, p);
    var empty := PartOf(store.state, p).locators == map[];
    var answer := Move(store, w, period, tomb, Seek(w.operation, None), r, q);
    progress := if answer.Failed? then Stopped else if empty then PassEnded else Progress.Moved;
  }

  /** The step that erased the locator the tombstone named. */
  predicate ErasedBy(step: Step, w: Worker, period: nat, tomb: Tombstone) {
    && step.Traverse? && step.traverse.worker == w && step.traverse.period == period
    && tomb.cleanup.Some? && tomb.cleanup.value.Delete?
    && (if tomb.cleanup.value.locator.key.CandidateKey? then step.traverse.EraseContribution? else step.traverse.EraseFeature?)
  }

  method DeleteStep(store: Store, w: Worker, period: nat, tomb: Tombstone, ghost r: nat) returns (progress: Progress)
    requires store.Valid() && HasFence(store.h, r, OwnPartition(w, period), tomb)
    requires tomb.cleanup.Some? && tomb.cleanup.value.Delete? && tomb.cleanup.value.operation == w.operation
    modifies store
    ensures store.Valid() && store.Continues() && Turns(store.own, |old(store.own)|, w, period, {})
    ensures !progress.PassEnded? && !progress.Recomputed?
    ensures progress.Deleted? ==> store.steps != [] && ErasedBy(store.steps[|store.steps| - 1], w, period, tomb)
  {
    var p, locator := OwnPartition(w, period), tomb.cleanup.value.locator;
    store.Interfere();
    ghost var q := |store.h| - 1;
    var locators := PartOf(store.state, p).locators;
    var present := locator.key in locators;
    if present && locators[locator.key] != locator.expiresAt { return Stopped; }
    var answer;
    match locator.key {
      case CandidateKey(c) =>
        LocatedCandidate(store.h, store.steps, r, p);
        store.Interfere();
        ghost var u := |store.h| - 1;
        CandidateStays(store.h, store.steps, r, c);
        answer := EraseContribution(store, w, period, tomb, c, present, Found(store.state, c), r, q, u);
      case EventKey(e) =>
        answer := EraseFeature(store, w, period, tomb, e, present, r, q);
    }
    progress := if answer.Committed? then Deleted else Stopped;
  }

  /** At this moment of the call the candidate that the traversal named, if any, was repaired. */
  ghost predicate NamedRepaired(h: History, at: nat, tomb: Tombstone, t: Token)
    requires tomb.cleanup.Some? && !tomb.cleanup.value.Seek?
  {
    tomb.cleanup.value.locator.key.CandidateKey? ==> Repaired(h, at, tomb.cleanup.value.locator.key.candidate, t)
  }

  lemma PiecesAreTurns(own: seq<Step>, from: nat, w: Worker, period: nat, c: CandidateId, readings: set<nat>)
    requires Pieces(own, from, w, c, readings)
    ensures Turns(own, from, w, period, readings)
  {
  }

  lemma RepairEarned(h: History, steps: seq<Step>, r: nat, at: nat, w: Worker, period: nat, tomb: Tombstone)
    requires Run(h, steps) && r <= at < |h| && HasFence(h, r, OwnPartition(w, period), tomb)
    requires tomb.cleanup.Some? && tomb.cleanup.value.Recompute?
    requires tomb.cleanup.value.locator.key.CandidateKey? ==> RepairedAt(h, at, tomb.cleanup.value.locator.key.candidate)
    ensures NamedRepaired(h, at, tomb, w.account)
    ensures Traversal.Earned(h, r, at, OwnPartition(w, period), w.operation)
  {
    if tomb.cleanup.value.locator.key.CandidateKey? {
      var p, c := OwnPartition(w, period), tomb.cleanup.value.locator.key.candidate;
      RowGone(h, steps, r, at, p, c);
      RepairedHere(h, steps, at, p, c);
    }
  }

  /** Goes on to the next locator only after the recomputation was finished. */
  method LeaveRecompute(store: Store, w: Worker, period: nat, tomb: Tombstone, ghost r: nat, ghost at: nat) returns (progress: Progress)
    requires store.Valid() && HasFence(store.h, r, OwnPartition(w, period), tomb) && r <= at < |store.h|
    requires tomb.cleanup.Some? && tomb.cleanup.value.Recompute? && tomb.cleanup.value.operation == w.operation
    requires tomb.cleanup.value.locator.key.CandidateKey? ==> RepairedAt(store.h, at, tomb.cleanup.value.locator.key.candidate)
    modifies store
    ensures store.Valid() && store.Continues() && Turns(store.own, |old(store.own)|, w, period, {})
    ensures progress.Recomputed? || progress.Stopped?
    ensures NamedRepaired(store.h, at, tomb, w.account)
  {
    RepairEarned(store.h, store.steps, r, at, w, period, tomb);
    var answer := Move(store, w, period, tomb, Seek(w.operation, tomb.cleanup.value.nextCursor), r, at);
    NamedLater(old(store.h), store.h, at, tomb, w.account);
    progress := if answer.Committed? then Recomputed else Stopped;
  }

  lemma NamedLater(h: History, h': History, at: nat, tomb: Tombstone, t: Token)
    requires tomb.cleanup.Some? && !tomb.cleanup.value.Seek? && NamedRepaired(h, at, tomb, t) && h <= h'
    ensures NamedRepaired(h', at, tomb, t)
  {
    if tomb.cleanup.value.locator.key.CandidateKey? { RepairedLater(h, h', at, tomb.cleanup.value.locator.key.candidate, t); }
  }

  /** One piece of the recomputation of the candidate the traversal names. It is reported done only if at a
      moment of this call the contributor had no row there and nothing was left to repair. */
  method RecomputeStep(store: Store, w: Worker, period: nat, tomb: Tombstone, now: nat, ghost r: nat) returns (progress: Progress, ghost at: nat)
    requires store.Valid() && HasFence(store.h, r, OwnPartition(w, period), tomb) && now <= store.state.clock
    requires tomb.cleanup.Some? && tomb.cleanup.value.Recompute? && tomb.cleanup.value.operation == w.operation
    modifies store
    ensures store.Valid() && store.Continues() && Turns(store.own, |old(store.own)|, w, period, {now})
    ensures !progress.PassEnded?
    ensures progress.Recomputed? ==> |old(store.h)| <= at + 1 && NamedRepaired(store.h, at, tomb, w.account)
  {
    at := |store.h| - 1;
    var locator := tomb.cleanup.value.locator;
    if locator.key.CandidateKey? {
      LocatedCandidate(store.h, store.steps, r, OwnPartition(w, period));
      var out;
      out, at := RecomputePage(store, w, locator.key.candidate, w.account, now);
      PiecesAreTurns(store.own, |old(store.own)|, w, period, locator.key.candidate, {now});
      if out.Unavailable? { return Stopped, 0; }
      if !out.finished { return Progress.Moved, 0; }
    }
    ghost var pieces := store.own;
    progress := LeaveRecompute(store, w, period, tomb, r, at);
    TurnsAdd(pieces, store.own, |old(store.own)|, w, period, {now});
  }

  /** At moment `r` the traversal was at a recomputation, and at moment `at` that was finished. */
  ghost predicate NamedAt(h: History, r: nat, at: nat, p: Partition) {
    FenceSeen(h, r, p) && FenceAt(h, r, p).cleanup.Some? && FenceAt(h, r, p).cleanup.value.Recompute?
    && NamedRepaired(h, at, FenceAt(h, r, p), p.token)
  }

  /** Reads the tombstone and does what its traversal state asks for. */
  method SweepStep(store: Store, w: Worker, period: nat, now: nat) returns (progress: Progress, ghost r: nat, ghost at: nat)
    requires store.Valid() && now <= store.state.clock
    modifies store
    ensures store.Valid() && store.Continues() && Turns(store.own, |old(store.own)|, w, period, {now})
    ensures progress.PassEnded? ==> |old(store.h)| <= at + 1 && SeenEmpty(store.h, OwnPartition(w, period), at)
    ensures progress.PassEnded? ==> TraversalIs(OwnPartition(w, period), Seek(w.operation, None))(store.state)
    ensures progress.Recomputed? ==> |old(store.h)| <= r + 1 && r <= at && NamedAt(store.h, r, at, OwnPartition(w, period))
  {
    at := 0;
    ghost var start := |store.h| - 1;
    store.Interfere();
    ClockRuns(store.h, store.steps, start);
    r := |store.h| - 1;
    var fence := Fence(store.state, OwnPartition(w, period));
    if fence.None? { return Stopped, r, 0; }
    var tomb := fence.value;
    if tomb.cleanup.None? || tomb.cleanup.value.operation != w.operation {
      // The traversal of an earlier operation is taken over where it stands.
      var next := if tomb.cleanup.None? then Seek(w.operation, None) else tomb.cleanup.value.(operation := w.operation);
      var answer := Move(store, w, period, tomb, next, r, r);
      progress := if answer.Committed? then Progress.Moved else Stopped;
    } else if tomb.cleanup.value.Seek? {
      progress, at := SeekStep(store, w, period, tomb, r);
    } else if tomb.cleanup.value.Delete? {
      progress := DeleteStep(store, w, period, tomb, r);
    } else {
      progress, at := RecomputeStep(store, w, period, tomb, now, r);
    }
  }

  /** At most `maxSteps` steps. When the pass is reported ended, nothing the protocol wrote for the contributor's period
      exists any more, whatever the other workers did meanwhile, and nothing ever will; and every candidate that
      lost a contribution of theirs while it was live has been repaired since. */
  method Sweep(store: Store, w: Worker, period: nat, now: nat, maxSteps: nat) returns (deleted: nat, recomputed: nat, passEnded: bool, ok: bool)
    requires store.Valid() && now <= store.state.clock && 1 <= maxSteps <= 20
    modifies store
    ensures store.Valid() && store.Continues() && Turns(store.own, |old(store.own)|, w, period, {now})
    ensures deleted + recomputed <= maxSteps
    ensures passEnded ==> Erased(store.state, OwnPartition(w, period)) && Fence(store.state, OwnPartition(w, period)).Some?
    ensures passEnded ==> AllRepaired(store.h, |store.h| - 1, OwnPartition(w, period))
  {
    deleted, recomputed, passEnded, ok := 0, 0, false, true;
    var i := 0;
    while i < maxSteps
      invariant store.Valid() && store.Continues() && 0 <= i <= maxSteps && deleted + recomputed <= i
      invariant now <= store.state.clock && !passEnded && ok && Turns(store.own, |old(store.own)|, w, period, {now})
    {
      ghost var start, before := |store.h| - 1, store.own;
      var progress, r, at := SweepStep(store, w, period, now);
      ClockRuns(store.h, store.steps, start);
      TurnsAdd(before, store.own, |old(store.own)|, w, period, {now});
      match progress {
        case Moved =>
        case Deleted => deleted := deleted + 1;
        case Recomputed => recomputed := recomputed + 1;
        case PassEnded =>
          NoResurrection(store.h, store.steps, at, |store.h| - 1, OwnPartition(w, period));
          FenceStays(store.h, store.steps, at, OwnPartition(w, period));
          SeekingMeansRepaired(store.h, store.steps, |store.h| - 1, OwnPartition(w, period));
          return deleted, recomputed, true, true;
        case Stopped => return deleted, recomputed, false, false;
      }
      i := i + 1;
    }
  }
}
