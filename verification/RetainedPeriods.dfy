/** The rotation over retained periods is fair, and it shares the tombstone with the locator
    traversal without either losing an update of the other. */
module RetainedPeriods {
  import opened Basics
  import opened Candidate
  import opened Table
  import opened Observations
  import opened Fences
  import opened Protocol
  import opened Erasure
  import Traversal

  type History = Observations.History
  type Step = Protocol.Step

  predicate Rotates(step: Step, p: Partition) {
    step.Traverse? && step.traverse.MovePeriods? && OwnPartition(step.traverse.worker, step.traverse.period) == p
  }

  function TombAt(s: State, p: Partition): Option<Tombstone> { PartOf(s, p).tombstone }

  /** The period selected by an attempt made on this table. */
  function Selected(s: State, p: Partition, minimum: nat): nat
    requires TombAt(s, p).Some?
  {
    Traversal.SelectedPeriod(TombAt(s, p).value.periods, minimum)
  }

  // ---------------------------------------------------------------- one shared tombstone

  lemma FenceWritten(h: History, k: nat, step: Step, p: Partition)
    requires k < |h| && Protocol.Enabled(h, k, step) && TombAt(h[k], p).Some?
    ensures var x := Protocol.Writes(h, k, step);
            x.fence.Some? && x.fence.value.0 == p ==>
              var tomb := TombAt(h[k], p).value;
              if Rotates(step, p) then x.fence.value.1 == Traversal.Rotated(tomb, step.traverse.worker.operation, step.traverse.minimum, p.period)
              else MovesTraversal(step, p) && x.fence.value.1.cleanup.Some?
                   && x.fence.value.1 == Traversal.Moved(tomb, x.fence.value.1.cleanup.value)
    ensures Rotates(step, p) ==> Protocol.Writes(h, k, step).fence.Some? && Protocol.Writes(h, k, step).fence.value.0 == p
    ensures Rotates(step, p) ==> Traversal.RotationFits(TombAt(h[k], p).value.periods, step.traverse.minimum, p.period)
  {
  }

  /** A rotation moves only the period cursor, a traversal step only the traversal state, and any
      other step neither. */
  lemma TombstoneShared(h: History, steps: seq<Step>, k: nat, p: Partition)
    requires Run(h, steps) && k < |steps| && TombAt(h[k], p).Some?
    ensures TombAt(h[k + 1], p).Some?
    ensures var a, b := TombAt(h[k], p).value, TombAt(h[k + 1], p).value;
            && (!Rotates(steps[k], p) ==> b.periods == a.periods && b.periodRevision == a.periodRevision)
            && (!MovesTraversal(steps[k], p) ==> b.cleanup == a.cleanup && b.cleanupRevision == a.cleanupRevision)
            && (Rotates(steps[k], p) ==>
                 && b == Traversal.Rotated(a, steps[k].traverse.worker.operation, steps[k].traverse.minimum, p.period)
                 && Traversal.RotationFits(a.periods, steps[k].traverse.minimum, p.period))
  {
    RunApplies(h, steps, k);
    FenceWritten(h[..k + 1], k, steps[k], p);
    PartAfter(h[k], Protocol.Writes(h[..k + 1], k, steps[k]), p);
  }

  lemma {:induction false} CursorStays(h: History, steps: seq<Step>, i: nat, j: nat, p: Partition)
    requires Run(h, steps) && i <= j < |h| && TombAt(h[i], p).Some?
    requires forall k :: i <= k < j ==> !Rotates(steps[k], p)
    ensures TombAt(h[j], p).Some? && TombAt(h[j], p).value.periods == TombAt(h[i], p).value.periods
  {
    if i < j {
      CursorStays(h, steps, i, j - 1, p);
      TombstoneShared(h, steps, j - 1, p);
    }
  }

  // ---------------------------------------------------------------- fairness

  function Following(x: nat, minimum: nat, maximum: nat): nat { if x == maximum then minimum else x + 1 }

  /** `ks` are consecutive committed rotations of the same retained range. */
  ghost predicate Consecutive(h: History, steps: seq<Step>, ks: seq<nat>, p: Partition, minimum: nat)
    requires |h| == |steps| + 1
  {
    && (forall i :: 0 <= i < |ks| ==> ks[i] < |steps| && Rotates(steps[ks[i]], p) && steps[ks[i]].traverse.minimum == minimum)
    && (forall i :: 0 <= i < |ks| - 1 ==> ks[i] < ks[i + 1] && Between(steps, ks[i], ks[i + 1], p))
  }

  ghost predicate Between(steps: seq<Step>, a: nat, b: nat, p: Partition)
    requires b <= |steps|
  {
    forall k :: a < k < b ==> !Rotates(steps[k], p)
  }

  /** The period attempted by the rotation at `k`. */
  function Attempted(h: History, k: nat, p: Partition, minimum: nat): nat
    requires k < |h|
  {
    if TombAt(h[k], p).Some? then Selected(h[k], p, minimum) else minimum
  }

  lemma RotationNeedsFence(h: History, steps: seq<Step>, k: nat, p: Partition)
    requires Run(h, steps) && k < |steps| && Rotates(steps[k], p)
    ensures TombAt(h[k], p).Some?
  {
    RunApplies(h, steps, k);
  }

  lemma RotationInRange(h: History, steps: seq<Step>, k: nat, p: Partition)
    requires Run(h, steps) && k < |steps| && Rotates(steps[k], p)
    ensures steps[k].traverse.minimum <= Attempted(h, k, p, steps[k].traverse.minimum) <= p.period
  {
    RotationNeedsFence(h, steps, k, p);
    TombstoneShared(h, steps, k, p);
  }

  lemma NextAttempt(h: History, steps: seq<Step>, j: nat, k: nat, p: Partition, minimum: nat)
    requires Run(h, steps) && j < k < |steps| && Rotates(steps[j], p) && Rotates(steps[k], p) && Between(steps, j, k, p)
    requires steps[j].traverse.minimum == minimum
    ensures Attempted(h, k, p, minimum) == Following(Attempted(h, j, p, minimum), minimum, p.period)
  {
    RotationNeedsFence(h, steps, j, p);
    TombstoneShared(h, steps, j, p);
    CursorStays(h, steps, j + 1, k, p);
  }

  /** The period `i` rotations after an attempt on `first`, less than a whole round later. */
  function AfterRotations(first: nat, i: nat, minimum: nat, maximum: nat): int {
    if first + i <= maximum then first + i else first + i - (maximum - minimum + 1)
  }

  lemma {:induction false} AttemptAt(h: History, steps: seq<Step>, ks: seq<nat>, i: nat, p: Partition, minimum: nat)
    requires Run(h, steps) && Consecutive(h, steps, ks, p, minimum) && i < |ks| <= p.period - minimum + 1
    ensures minimum <= Attempted(h, ks[0], p, minimum) <= p.period
    ensures Attempted(h, ks[i], p, minimum) == AfterRotations(Attempted(h, ks[0], p, minimum), i, minimum, p.period)
  {
    if i == 0 {
      RotationInRange(h, steps, ks[0], p);
    } else {
      AttemptAt(h, steps, ks, i - 1, p, minimum);
      NextAttempt(h, steps, ks[i - 1], ks[i], p, minimum);
    }
  }

  /** Fairness: as many consecutive rotations as there are retained periods attempt each of them
      exactly once, whatever became of the attempts. */
  lemma EachPeriodOnce(h: History, steps: seq<Step>, ks: seq<nat>, p: Partition, minimum: nat, x: nat) returns (i: nat)
    requires Run(h, steps) && Consecutive(h, steps, ks, p, minimum)
    requires minimum <= x <= p.period && |ks| == p.period - minimum + 1
    ensures i < |ks| && Attempted(h, ks[i], p, minimum) == x
    ensures forall j :: 0 <= j < |ks| && j != i ==> Attempted(h, ks[j], p, minimum) != x
  {
    AttemptAt(h, steps, ks, 0, p, minimum);
    var first := Attempted(h, ks[0], p, minimum);
    i := if x >= first then x - first else x + |ks| - first;
    AttemptAt(h, steps, ks, i, p, minimum);
    forall j | 0 <= j < |ks| && j != i ensures Attempted(h, ks[j], p, minimum) != x {
      AttemptAt(h, steps, ks, j, p, minimum);
    }
  }

  /** A full round behind the tombstone of the last period that has begun when the command occurs attempts
      exactly the periods not before the minimum that have begun by then. */
  lemma EveryDuePeriod(h: History, steps: seq<Step>, ks: seq<nat>, p: Partition, minimum: nat, occurredAt: nat, x: nat)
    requires Run(h, steps) && Consecutive(h, steps, ks, p, minimum) && minimum <= p.period && |ks| == p.period - minimum + 1
    requires p.period * PERIOD_SECONDS <= occurredAt < (p.period + 1) * PERIOD_SECONDS
    ensures (exists i :: 0 <= i < |ks| && Attempted(h, ks[i], p, minimum) == x) <==> minimum <= x && x * PERIOD_SECONDS <= occurredAt
  {
    BegunBy(p.period, occurredAt, x);
    if minimum <= x <= p.period { var i := EachPeriodOnce(h, steps, ks, p, minimum, x); }
    if i :| 0 <= i < |ks| && Attempted(h, ks[i], p, minimum) == x { RotationInRange(h, steps, ks[i], p); }
  }

  lemma BegunBy(last: nat, occurredAt: nat, x: nat)
    requires last * PERIOD_SECONDS <= occurredAt < (last + 1) * PERIOD_SECONDS
    ensures x <= last <==> x * PERIOD_SECONDS <= occurredAt
  {
  }
}
