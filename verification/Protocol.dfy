/** Runs of the whole system: any number of workers of every kind, interleaved freely. A worker that
    crashes takes no further step; a worker whose acknowledgement is lost has taken its step. */
module Protocol {
  import opened Candidate
  import opened CandidateSteps
  import opened Table
  import opened Observations
  import ClusterWriter
  import Traversal
  import Repair
  import Publisher
  import Completion
  import Surroundings

  datatype Step =
    | Cluster(cluster: ClusterWriter.ClusterStep)
    | Traverse(traverse: Traversal.TraversalStep)
    | Mend(mend: Repair.RepairStep)
    | Publishing(publishing: Publisher.PublisherStep)
    | Complete(complete: Completion.CompletionStep)
    | Surround(surround: Surroundings.SurroundingStep)

  const EMPTY_TABLE := State(0, {}, map[], map[], map[], map[], map[])

  ghost predicate Enabled(h: History, k: nat, step: Step)
    requires k < |h|
  {
    match step
    case Cluster(x) => ClusterWriter.Enabled(h, k, x)
    case Traverse(x) => Traversal.Enabled(h, k, x)
    case Mend(x) => Repair.Enabled(h, k, x)
    case Publishing(x) => Publisher.Enabled(h, k, x)
    case Complete(x) => Completion.Enabled(h, k, x)
    case Surround(x) => Surroundings.Enabled(h, k, x)
  }

  ghost function Writes(h: History, k: nat, step: Step): Transaction
    requires k < |h| && Enabled(h, k, step)
  {
    match step
    case Cluster(x) => ClusterWriter.Writes(h, k, x)
    case Traverse(x) => Traversal.Writes(h, k, x)
    case Mend(x) => Repair.Writes(h, k, x)
    case Publishing(x) => Publisher.Writes(h, k, x)
    case Complete(x) => Completion.Writes(h, k, x)
    case Surround(x) => Surroundings.Writes(h, k, x)
  }

  /** The step is enabled by what was read from the past and commits to the newest state. */
  ghost predicate Commits(past: History, step: Step, after: State) {
    && past != []
    && Enabled(past, |past| - 1, step)
    && Applicable(past[|past| - 1], Writes(past, |past| - 1, step).cell)
    && after == Apply(past[|past| - 1], Writes(past, |past| - 1, step))
  }

  ghost predicate StepAt(h: History, steps: seq<Step>, k: nat)
    requires |h| == |steps| + 1 && k < |steps|
  {
    Commits(h[..k + 1], steps[k], h[k + 1])
  }

  /** `h[k + 1]` is the state after `steps[k]`. */
  ghost predicate Run(h: History, steps: seq<Step>) {
    && |h| == |steps| + 1
    && h[0] == EMPTY_TABLE
    && forall k :: 0 <= k < |steps| ==> StepAt(h, steps, k)
  }

  lemma StepSound(h: History, k: nat, step: Step)
    requires Coherent(h, k) && Enabled(h, k, step)
    ensures Sound(h[k], Writes(h, k, step))
  {
    match step
    case Cluster(x) => ClusterWriter.StepSound(h, k, x);
    case Traverse(x) => Traversal.StepSound(h, k, x);
    case Mend(x) => Repair.StepSound(h, k, x);
    case Publishing(x) => Publisher.StepSound(h, k, x);
    case Complete(x) => Completion.StepSound(h, k, x);
    case Surround(x) => Surroundings.StepSound(h, k, x);
  }

  lemma InvNow(h: History, k: nat)
    requires Coherent(h, k)
    ensures Table.Inv(h[k])
  {
    assert SoundAt(h, k);
  }

  ghost predicate Keeps(s: State, x: Transaction) {
    Applicable(s, x.cell) && Table.Inv(Apply(s, x)) && Table.Evolves(s, Apply(s, x))
  }

  lemma SoundKeeps(s: State, x: Transaction)
    requires Table.Inv(s) && Sound(s, x)
    ensures Keeps(s, x)
  {
    Table.InvKept(s, x);
  }

  /** Whatever was read: when its guard holds, a step can be committed, and keeps the invariant. */
  lemma GuardSuffices(h: History, k: nat, step: Step)
    requires Coherent(h, k) && Enabled(h, k, step)
    ensures Keeps(h[k], Writes(h, k, step))
  {
    InvNow(h, k);
    StepSound(h, k, step);
    SoundKeeps(h[k], Writes(h, k, step));
  }

  lemma CommitKeeps(past: History, step: Step, after: State)
    requires past != [] && Commits(past, step, after)
    requires Keeps(past[|past| - 1], Writes(past, |past| - 1, step))
    ensures Table.Inv(after) && Table.Evolves(past[|past| - 1], after)
  {
  }

  lemma NextKeeps(past: History, step: Step, after: State)
    requires past != [] && Coherent(past, |past| - 1) && Commits(past, step, after)
    ensures Table.Inv(after) && Table.Evolves(past[|past| - 1], after)
  {
    GuardSuffices(past, |past| - 1, step);
    CommitKeeps(past, step, after);
  }

  lemma RunNext(h: History, steps: seq<Step>, k: nat)
    requires Run(h, steps) && k < |steps| && Coherent(h[..k + 1], k)
    ensures Table.Inv(h[k + 1]) && Table.Evolves(h[k], h[k + 1])
  {
    assert StepAt(h, steps, k);
    NextKeeps(h[..k + 1], steps[k], h[k + 1]);
  }

  lemma CoherentPrefix(h: History, k: nat)
    requires k < |h|
    ensures Coherent(h[..k + 1], k) == Coherent(h, k)
  {
    var past := h[..k + 1];
    if Coherent(h, k) {
      forall i | 0 <= i <= k ensures SoundAt(past, i) { assert SoundAt(h, i); }
      forall i, j | 0 <= i <= j <= k ensures Later(past, i, j) { assert Later(h, i, j); }
    } else if Coherent(past, k) {
      forall i | 0 <= i <= k ensures SoundAt(h, i) { assert SoundAt(past, i); }
      forall i, j | 0 <= i <= j <= k ensures Later(h, i, j) { assert Later(past, i, j); }
    }
  }

  lemma CoherentExtend(h: History, k: nat)
    requires k + 1 < |h| && Coherent(h, k) && Table.Inv(h[k + 1]) && Table.Evolves(h[k], h[k + 1])
    ensures Coherent(h, k + 1)
  {
    assert SoundAt(h, k + 1);
    forall i, j | 0 <= i <= j <= k + 1 ensures Later(h, i, j) {
      if j == k + 1 && i <= k {
        assert Later(h, i, k);
        Table.EvolvesTransitive(h[i], h[k], h[k + 1]);
      } else if i == k + 1 {
        EvolvesReflexive(h[k + 1]);
      }
    }
  }

  lemma EvolvesReflexive(s: State)
    ensures Table.Evolves(s, s)
  {
  }

  lemma EmptyTableSound()
    ensures Table.Inv(EMPTY_TABLE)
  {
  }

  /** Along every run the invariant holds, and every state is a possible later state of every
      earlier one. */
  lemma {:induction false} RunCoherent(h: History, steps: seq<Step>, k: nat)
    requires Run(h, steps) && k < |h|
    ensures Coherent(h, k)
  {
    if k == 0 {
      EmptyTableSound();
      EvolvesReflexive(h[0]);
      assert SoundAt(h, 0) && Later(h, 0, 0);
    } else {
      RunCoherent(h, steps, k - 1);
      CoherentPrefix(h, k - 1);
      RunNext(h, steps, k - 1);
      CoherentExtend(h, k - 1);
    }
  }

  lemma RunInv(h: History, steps: seq<Step>, k: nat)
    requires Run(h, steps) && k < |h|
    ensures Table.Inv(h[k])
  {
    RunCoherent(h, steps, k);
    assert SoundAt(h, k);
  }

  lemma RunEvolves(h: History, steps: seq<Step>, i: nat, j: nat)
    requires Run(h, steps) && i <= j < |h|
    ensures Table.Evolves(h[i], h[j])
  {
    RunCoherent(h, steps, j);
    assert Later(h, i, j);
  }

  /** The transaction that led from one state of a run to the next is sound. */
  lemma RunSound(h: History, steps: seq<Step>, k: nat)
    requires Run(h, steps) && k < |steps|
    ensures Enabled(h[..k + 1], k, steps[k]) && Sound(h[k], Writes(h[..k + 1], k, steps[k]))
    ensures h[k + 1] == Apply(h[k], Writes(h[..k + 1], k, steps[k]))
  {
    assert StepAt(h, steps, k);
    RunCoherent(h, steps, k);
    CoherentPrefix(h, k);
    StepSound(h[..k + 1], k, steps[k]);
  }

  lemma RunApplies(h: History, steps: seq<Step>, k: nat)
    requires Run(h, steps) && k < |steps|
    ensures Table.Inv(h[k]) && Enabled(h[..k + 1], k, steps[k])
    ensures Sound(h[k], Writes(h[..k + 1], k, steps[k])) && h[k + 1] == Apply(h[k], Writes(h[..k + 1], k, steps[k]))
  {
    RunInv(h, steps, k);
    RunSound(h, steps, k);
  }

  /** The transaction of one step of a run, whatever the step was. */
  lemma RunEffect(h: History, steps: seq<Step>, k: nat) returns (x: Transaction)
    requires Run(h, steps) && k < |steps|
    ensures Table.Inv(h[k]) && Sound(h[k], x) && h[k + 1] == Apply(h[k], x)
  {
    RunApplies(h, steps, k);
    x := Writes(h[..k + 1], k, steps[k]);
  }

  /** The transaction of one step of a run, with what enabled it. */
  lemma RunTransaction(h: History, steps: seq<Step>, k: nat) returns (x: Transaction)
    requires Run(h, steps) && k < |steps|
    ensures Table.Inv(h[k]) && Sound(h[k], x) && h[k + 1] == Apply(h[k], x)
    ensures Enabled(h[..k + 1], k, steps[k]) && x == Writes(h[..k + 1], k, steps[k])
  {
    RunApplies(h, steps, k);
    x := Writes(h[..k + 1], k, steps[k]);
  }

  /** What every sound transaction keeps, every run keeps. */
  lemma {:induction false} RunKeeps(h: History, steps: seq<Step>, i: nat, j: nat, holds: State -> bool)
    requires Run(h, steps) && i <= j < |h| && holds(h[i])
    requires forall s, x :: Table.Inv(s) && Sound(s, x) && holds(s) ==> holds(Apply(s, x))
    ensures holds(h[j])
  {
    if i < j {
      RunKeeps(h, steps, i, j - 1, holds);
      var x := RunEffect(h, steps, j - 1);
    }
  }

  /** A run can be continued by any enabled step. */
  lemma RunExtends(h: History, steps: seq<Step>, step: Step, after: State)
    requires Run(h, steps) && Commits(h, step, after)
    ensures Run(h + [after], steps + [step])
  {
    var h', steps' := h + [after], steps + [step];
    forall k | 0 <= k < |steps'| ensures StepAt(h', steps', k) {
      if k < |steps| {
        assert StepAt(h, steps, k);
        assert h'[..k + 1] == h[..k + 1];
      } else {
        assert h'[..k + 1] == h;
      }
    }
  }
}
