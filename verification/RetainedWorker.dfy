/** One attempt of a deletion command: advance the durable rotation, then sweep the selected period. */
module RetainedWorker {
  import opened Basics
  import opened Candidate
  import opened Table
  import opened Observations
  import opened Fences
  import opened Store
  import opened Protocol
  import opened Erasure
  import opened SweepWorker
  import opened RepairedRuns
  import RecomputeWorker
  import Completion
  import CompletionWorker
  import Traversal

  type History = Observations.History
  type Step = Protocol.Step

  datatype Attempt =
    | AlreadyCompleted
    | Attempted(period: nat, passEnded: bool)
    | Unverified(selected: Option<nat>)

  // ---------------------------------------------------------------- the tombstone

  predicate MayFence(s: State, w: Worker, p: Partition, command: Command) {
    CommandLive(s, w) && CompletionWorker.CommandOf(s, w) == Some(command) && Fence(s, p).None?
  }

  function FenceGuard(w: Worker, p: Partition, command: Command): State -> bool { (s: State) => MayFence(s, w, p, command) }

  function NewTombstone(occurredAt: nat, days: nat): Tombstone {
    Tombstone(occurredAt, occurredAt + days * 86400, 0, None, 0, None)
  }

  function Fencing(p: Partition, tomb: Tombstone): State --> Transaction { (s: State) => NO_WRITES.(fence := Some((p, tomb))) }

  lemma FenceRefines(h: History, w: Worker, period: nat, command: Command, days: nat)
    requires h != [] && 1 <= days <= 21
    ensures AlwaysRefines(h, FenceGuard(w, OwnPartition(w, period), command),
                          Fencing(OwnPartition(w, period), NewTombstone(command.occurredAt, days)), Traverse(Traversal.EnsureFence(w, period, days)))
  {
  }

  function FencedWith(p: Partition, tomb: Tombstone): State -> bool { (s: State) => Fence(s, p) == Some(tomb) }

  lemma FenceStands(w: Worker, p: Partition, command: Command, tomb: Tombstone)
    ensures Ensures(FenceGuard(w, p, command), Fencing(p, tomb), FencedWith(p, tomb))
  {
  }

  /** No step, or the one that put the tombstone. */
  predicate OnlyFences(before: seq<Step>, after: seq<Step>, w: Worker, period: nat, days: nat) {
    after == before || after == before + [Traverse(Traversal.EnsureFence(w, period, days))]
  }

  method PutFence(store: Store, w: Worker, period: nat, command: Command, days: nat) returns (answer: Answer)
    requires store.Valid() && 1 <= days <= 21
    modifies store
    ensures store.Valid() && store.Continues() && OnlyFences(old(store.own), store.own, w, period, days)
    ensures answer.Committed? ==> Fence(store.state, OwnPartition(w, period)) == Some(NewTombstone(command.occurredAt, days))
  {
    var p, created := OwnPartition(w, period), NewTombstone(command.occurredAt, days);
    FenceRefines(store.h, w, period, command, days);
    FenceStands(w, p, command, created);
    answer := store.Commit(FenceGuard(w, p, command), Fencing(p, created), FencedWith(p, created),
                        Traverse(Traversal.EnsureFence(w, period, days)));
  }

  /** An existing tombstone is taken as it is; otherwise one is put where none is. */
  method Ensure(store: Store, w: Worker, period: nat, command: Command, days: nat) returns (tomb: Option<Tombstone>, ghost r: nat)
    requires store.Valid() && 1 <= days <= 21
    modifies store
    ensures store.Valid() && store.Continues() && OnlyFences(old(store.own), store.own, w, period, days)
    ensures tomb.Some? ==> HasFence(store.h, r, OwnPartition(w, period), tomb.value)
  {
    store.Interfere();
    r := |store.h| - 1;
    tomb := Fence(store.state, OwnPartition(w, period));
    if tomb.None? {
      var answer := PutFence(store, w, period, command, days);
      r := |store.h| - 1;
      tomb := if answer.Committed? then Some(NewTombstone(command.occurredAt, days)) else None;
    }
  }

  // ---------------------------------------------------------------- the rotation

  predicate MayRotate(s: State, w: Worker, p: Partition, tomb: Tombstone) {
    CommandLive(s, w) && Fence(s, p) == Some(tomb)
  }

  function RotateGuard(w: Worker, p: Partition, tomb: Tombstone): State -> bool { (s: State) => MayRotate(s, w, p, tomb) }

  lemma RotateRefines(h: History, w: Worker, period: nat, r: nat, tomb: Tombstone, minimum: nat)
    requires HasFence(h, r, OwnPartition(w, period), tomb) && Traversal.RotationFits(tomb.periods, minimum, period)
    ensures AlwaysRefines(h, RotateGuard(w, OwnPartition(w, period), tomb),
                          Fencing(OwnPartition(w, period), Traversal.Rotated(tomb, w.operation, minimum, period)),
                          Traverse(Traversal.MovePeriods(w, period, r, minimum)))
  {
  }

  method Advance(store: Store, w: Worker, period: nat, tomb: Tombstone, minimum: nat, ghost r: nat) returns (answer: Answer)
    requires store.Valid() && HasFence(store.h, r, OwnPartition(w, period), tomb)
    requires Traversal.RotationFits(tomb.periods, minimum, period)
    modifies store
    ensures store.Valid() && store.Continues()
    ensures store.own == old(store.own) || store.own == old(store.own) + [Traverse(Traversal.MovePeriods(w, period, r, minimum))]
    ensures answer.Committed? ==> store.own != old(store.own)
    ensures answer.Committed? ==>
              Fence(store.state, OwnPartition(w, period)) == Some(Traversal.Rotated(tomb, w.operation, minimum, period))
  {
    var p, next := OwnPartition(w, period), Traversal.Rotated(tomb, w.operation, minimum, period);
    RotateRefines(store.h, w, period, r, tomb, minimum);
    RotateStands(w, p, tomb, next);
    answer := store.Commit(RotateGuard(w, p, tomb), Fencing(p, next), FencedWith(p, next), Traverse(Traversal.MovePeriods(w, period, r, minimum)));
  }

  lemma RotateStands(w: Worker, p: Partition, tomb: Tombstone, next: Tombstone)
    ensures Ensures(RotateGuard(w, p, tomb), Fencing(p, next), FencedWith(p, next))
  {
  }

  // ---------------------------------------------------------------- one attempt

  /** Nothing the protocol wrote for the contributor's period is left, and every candidate that lost a
      contribution of theirs while it was live has been repaired since. */
  ghost predicate CleanedUp(h: History, p: Partition)
    requires h != []
  {
    Erased(Last(h), p) && AllRepaired(h, |h| - 1, p)
  }

  method SweepSelected(store: Store, w: Worker, period: nat, command: Command, days: nat, maxSteps: nat, now: nat) returns (attempt: Attempt)
    requires store.Valid() && now <= store.state.clock && 1 <= days <= 21 && 1 <= maxSteps <= 20
    modifies store
    ensures store.Valid() && store.Continues()
    ensures attempt == Unverified(Some(period)) || (attempt.Attempted? && attempt.period == period)
    ensures attempt.Attempted? && attempt.passEnded ==> CleanedUp(store.h, OwnPartition(w, period))
    ensures Readings(store.own, |old(store.own)|, w, {now})
  {
    ghost var start := |store.h| - 1;
    var target, r := Ensure(store, w, period, command, days);
    RecomputeWorker.ClockRuns(store.h, store.steps, start);
    if target.None? || target.value.createdAt > command.occurredAt { return Unverified(Some(period)); }
    var deleted, recomputed, passEnded, ok := Sweep(store, w, period, now, maxSteps);
    attempt := if ok then Attempted(period, passEnded) else Unverified(Some(period));
  }

  /** Nothing but the tombstone was written before the rotation, which is step number `turn` of the
      worker; `at` is the state after it, in which the rotation stands behind `period`. */
  ghost predicate RotatedFirst(h: History, before: seq<Step>, own: seq<Step>, w: Worker, newest: nat, minimum: nat, days: nat,
                               period: nat, turn: nat, at: nat) {
    && |before| <= turn < |own| && OnlyFences(before, own[..turn], w, newest, days)
    && own[turn].Traverse? && own[turn].traverse.MovePeriods?
    && own[turn].traverse.worker == w && own[turn].traverse.period == newest && own[turn].traverse.minimum == minimum
    && at < |h| && Fence(h[at], OwnPartition(w, newest)).Some?
    && Fence(h[at], OwnPartition(w, newest)).value.periods ==
       Some(PeriodCursor(w.operation, minimum, newest, if period == newest then minimum else period + 1))
  }

  lemma RotatedBefore(h: History, before: seq<Step>, anchored: seq<Step>, own: seq<Step>, w: Worker, newest: nat, minimum: nat, days: nat,
                      anchor: Tombstone, r: nat, at: nat)
    requires OnlyFences(before, anchored, w, newest, days) && anchored + [Traverse(Traversal.MovePeriods(w, newest, r, minimum))] <= own
    requires at < |h| && Fence(h[at], OwnPartition(w, newest)) == Some(Traversal.Rotated(anchor, w.operation, minimum, newest))
    ensures RotatedFirst(h, before, own, w, newest, minimum, days, Traversal.SelectedPeriod(anchor.periods, minimum), |anchored|, at)
  {
    assert own[..|anchored|] == anchored;
  }

  /** The period an attempt was made on, whatever came of it. */
  function Tried(attempt: Attempt): Option<nat> {
    match attempt
    case AlreadyCompleted => None
    case Attempted(period, _) => Some(period)
    case Unverified(selected) => selected
  }

  lemma FencesReadNothing(before: seq<Step>, own: seq<Step>, w: Worker, newest: nat, days: nat, readings: set<nat>)
    requires OnlyFences(before, own, w, newest, days)
    ensures Readings(own, |before|, w, readings)
  {
  }

  lemma ReadingsAfter(before: seq<Step>, anchored: seq<Step>, rotated: seq<Step>, own: seq<Step>, w: Worker, newest: nat, minimum: nat, days: nat,
                      r: nat, readings: set<nat>)
    requires OnlyFences(before, anchored, w, newest, days) && rotated <= own && Readings(own, |rotated|, w, readings)
    requires rotated == anchored || rotated == anchored + [Traverse(Traversal.MovePeriods(w, newest, r, minimum))]
    ensures Readings(own, |before|, w, readings)
  {
    assert forall i :: |before| <= i < |rotated| ==> own[i] == rotated[i];
  }

  /** Advances the rotation behind the anchor's tombstone, then sweeps the period it selected. */
  method RotateAndSweep(store: Store, w: Worker, command: Command, anchor: Tombstone, newest: nat, minimum: nat, days: nat, maxSteps: nat,
                        now: nat, ghost r: nat, ghost before: seq<Step>) returns (attempt: Attempt, ghost turn: nat, ghost at: nat)
    requires store.Valid() && now <= store.state.clock && 1 <= days <= 21 && 1 <= maxSteps <= 20
    requires HasFence(store.h, r, OwnPartition(w, newest), anchor) && Traversal.RotationFits(anchor.periods, minimum, newest)
    requires OnlyFences(before, store.own, w, newest, days)
    modifies store
    ensures store.Valid() && store.Continues() && !attempt.AlreadyCompleted?
    ensures Readings(store.own, |before|, w, {now})
    ensures Tried(attempt).Some? ==>
              && minimum <= Tried(attempt).value <= newest
              && RotatedFirst(store.h, before, store.own, w, newest, minimum, days, Tried(attempt).value, turn, at)
    ensures attempt.Attempted? && attempt.passEnded ==> CleanedUp(store.h, OwnPartition(w, attempt.period))
  {
    ghost var start := |store.h| - 1;
    turn, at := |store.own|, start;
    ghost var anchored := store.own;
    var selected := Traversal.SelectedPeriod(anchor.periods, minimum);
    var answer := Advance(store, w, newest, anchor, minimum, r);
    ghost var rotated := store.own;
    if answer.Failed? {
      attempt := Unverified(None);
      ReadingsAfter(before, anchored, rotated, store.own, w, newest, minimum, days, r, {now});
      return;
    }
    at := |store.h| - 1;
    RecomputeWorker.ClockRuns(store.h, store.steps, start);
    attempt := SweepSelected(store, w, selected, command, days, maxSteps, now);
    ReadingsAfter(before, anchored, rotated, store.own, w, newest, minimum, days, r, {now});
    RotatedBefore(store.h, before, anchored, store.own, w, newest, minimum, days, anchor, r, at);
  }

  /** The rotation stands on the tombstone of the newest period, which is put first where it is missing. */
  method AnchorAndSweep(store: Store, w: Worker, command: Command, newest: nat, minimum: nat, days: nat, maxSteps: nat, now: nat)
      returns (attempt: Attempt, ghost turn: nat, ghost at: nat)
    requires store.Valid() && now <= store.state.clock && 1 <= days <= 21 && 1 <= maxSteps <= 20
    modifies store
    ensures store.Valid() && store.Continues() && !attempt.AlreadyCompleted? && Readings(store.own, |old(store.own)|, w, {now})
    ensures Tried(attempt).Some? ==>
              && minimum <= Tried(attempt).value <= newest
              && RotatedFirst(store.h, old(store.own), store.own, w, newest, minimum, days, Tried(attempt).value, turn, at)
    ensures attempt.Attempted? && attempt.passEnded ==> CleanedUp(store.h, OwnPartition(w, attempt.period))
  {
    ghost var start := |store.h| - 1;
    attempt, turn, at := Unverified(None), 0, start;
    var anchor, r := Ensure(store, w, newest, command, days);
    FencesReadNothing(old(store.own), store.own, w, newest, days, {now});
    if anchor.None? || anchor.value.createdAt > command.occurredAt || !Traversal.RotationFits(anchor.value.periods, minimum, newest) { return; }
    RecomputeWorker.ClockRuns(store.h, store.steps, start);
    attempt, turn, at := RotateAndSweep(store, w, command, anchor.value, newest, minimum, days, maxSteps, now, r, old(store.own));
  }

  /** The rotation is committed before the attempt: whatever the attempt meets, the rotation stands
      behind the period tried, and the next attempt selects another one. */
  method DeleteRetained(store: Store, w: Worker, command: Command, minimum: nat, days: nat, maxPeriods: nat, maxSteps: nat, now: nat)
      returns (attempt: Attempt, ghost newest: nat, ghost turn: nat, ghost at: nat)
    requires store.Valid() && now <= store.state.clock && command.completedAt.None?
    requires 1 <= days <= 21 && 1 <= maxSteps <= 20
    modifies store
    ensures store.Valid() && store.Continues() && Readings(store.own, |old(store.own)|, w, {now})
    ensures Tried(attempt).Some? ==>
              && minimum <= Tried(attempt).value && Tried(attempt).value * PERIOD_SECONDS <= command.occurredAt
              && newest * PERIOD_SECONDS <= command.occurredAt < (newest + 1) * PERIOD_SECONDS
              && RotatedFirst(store.h, old(store.own), store.own, w, newest, minimum, days, Tried(attempt).value, turn, at)
    ensures attempt.Attempted? && attempt.passEnded ==> CleanedUp(store.h, OwnPartition(w, attempt.period))
  {
    ghost var start := |store.h| - 1;
    var last := Completion.NewestPeriod(command.occurredAt);
    newest, turn, at := last, 0, start;
    store.Interfere();
    var stored := CompletionWorker.CommandOf(store.state, w);
    if stored.Some? && stored.value.completedAt.Some? && stored.value == command.(completedAt := stored.value.completedAt) {
      attempt := AlreadyCompleted;
      return;
    }
    attempt := Unverified(None);
    if stored != Some(command) || minimum > last || last - minimum + 1 > maxPeriods { return; }
    RecomputeWorker.ClockRuns(store.h, store.steps, start);
    attempt, turn, at := AnchorAndSweep(store, w, command, last, minimum, days, maxSteps, now);
    if Tried(attempt).Some? { Completion.NewestHasBegun(command.occurredAt, Tried(attempt).value); }
  }
}
