/** The table as one worker meets it: every read sees one state, every conditional transaction is
    evaluated and applied at once, and between any two calls other workers may do anything. */
module Store {
  import opened Candidate
  import opened CandidateSteps
  import opened Table
  import opened Observations
  import opened Protocol

  type History = Observations.History
  type Step = Protocol.Step

  /** A failed answer does not say whether the transaction was committed. */
  datatype Answer = Committed | Failed

  function Last(h: History): State
    requires h != []
  {
    h[|h| - 1]
  }

  /** In this history, the condition implies the step's guard and the writes are the step's. */
  ghost predicate Refines(h: History, guard: State -> bool, writes: State --> Transaction, step: Step)
    requires h != []
  {
    guard(Last(h)) ==>
      && Protocol.Enabled(h, |h| - 1, step)
      && writes.requires(Last(h)) && writes(Last(h)) == Protocol.Writes(h, |h| - 1, step)
  }

  ghost predicate AlwaysRefines(past: History, guard: State -> bool, writes: State --> Transaction, step: Step) {
    forall h: History :: past <= h && h != [] && Coherent(h, |h| - 1) ==> Refines(h, guard, writes, step)
  }

  /** Whatever state the condition admits, the claim holds of the result. */
  ghost predicate Ensures(guard: State -> bool, writes: State --> Transaction, claim: State -> bool) {
    forall s :: guard(s) && writes.requires(s) && Applicable(s, writes(s).cell) ==> claim(Apply(s, writes(s)))
  }

  class Store {
    var state: State
    /** What has happened so far; no worker reads it. */
    ghost var h: History
    ghost var steps: seq<Step>
    /** The steps among them that were committed through this object, and the calls that failed
        although their condition held. */
    ghost var own: seq<Step>
    ghost var faults: nat

    ghost predicate Valid()
      reads this
    {
      Run(h, steps) && state == Last(h) && |own| <= |steps|
    }

    /** The past is never rewritten. */
    twostate predicate Continues()
      reads this
    {
      && old(h) <= h && old(steps) <= steps && old(own) <= own && old(faults) <= faults
      && |old(steps)| - |old(own)| <= |steps| - |own|
    }

    /** Nobody else took a step, and no call failed but for its condition. */
    twostate predicate Alone()
      reads this
    {
      |steps| - |own| == |old(steps)| - |old(own)| && faults == old(faults)
    }

    constructor ()
      ensures Valid() && state == EMPTY_TABLE
    {
      state, h, steps, own, faults := EMPTY_TABLE, [EMPTY_TABLE], [], [], 0;
    }

    /** Other workers take any number of steps. Callers rely on this contract alone, so what they
        prove holds for every such interference. */
    method Interfere()
      requires Valid()
      modifies this
      ensures Valid() && Continues() && own == old(own) && faults == old(faults)
    {
    }

    /** A transaction of conditions alone. */
    method Check(guard: State -> bool) returns (answer: Answer)
      requires Valid()
      modifies this
      ensures Valid() && Continues() && own == old(own)
      ensures answer.Committed? ==> guard(state)
      ensures answer.Failed? && faults == old(faults) ==> !guard(state)
    {
      Interfere();
      answer := if guard(state) then Committed else Failed;
      if * {
        answer, faults := Failed, faults + 1;
      }
    }

    /** One conditional transaction. Others may come first; the condition and the writes are
        evaluated on the same state; a fault may prevent it or lose its answer. What the condition and
        the writes establish together holds when it has been applied, whatever the answer. */
    method Commit(guard: State -> bool, writes: State --> Transaction, ghost claim: State -> bool, ghost step: Step) returns (answer: Answer)
      requires Valid()
      requires AlwaysRefines(h, guard, writes, step) && Ensures(guard, writes, claim)
      modifies this
      ensures Valid() && Continues()
      ensures own == old(own) || (own == old(own) + [step] && |h| > |old(h)| && steps[|steps| - 1] == step && claim(state))
      ensures answer.Committed? ==> own == old(own) + [step]
      ensures answer.Failed? && faults == old(faults) ==> own == old(own) && !guard(state)
    {
      Interfere();
      var arrives: bool := *;
      answer := if arrives then Committed else Failed;
      var lost := if arrives then 0 else 1;
      if !guard(state) {
        answer := Failed;
      } else if * {
        Guarded(old(h), h, steps, guard, writes, claim, step);
        var next := Apply(state, writes(state));
        state, h, steps, own, faults := next, h + [next], steps + [step], own + [step], faults + lost;
      } else {
        answer, faults := Failed, faults + 1;
      }
    }
  }

  function Whatever(): State -> bool { (s: State) => true }

  lemma Guarded(past: History, h: History, steps: seq<Step>, guard: State -> bool, writes: State --> Transaction, claim: State -> bool, step: Step)
    requires Run(h, steps) && past <= h && AlwaysRefines(past, guard, writes, step) && Ensures(guard, writes, claim) && guard(Last(h))
    ensures writes.requires(Last(h)) && Applicable(Last(h), writes(Last(h)).cell)
    ensures Run(h + [Apply(Last(h), writes(Last(h)))], steps + [step]) && claim(Apply(Last(h), writes(Last(h))))
  {
    RunCoherent(h, steps, |h| - 1);
    assert Refines(h, guard, writes, step);
    GuardHolds(h, step);
    RunExtends(h, steps, step, Apply(Last(h), writes(Last(h))));
  }

  lemma GuardHolds(h: History, step: Step)
    requires h != [] && Coherent(h, |h| - 1) && Protocol.Enabled(h, |h| - 1, step)
    ensures Applicable(Last(h), Protocol.Writes(h, |h| - 1, step).cell)
    ensures Commits(h, step, Apply(Last(h), Protocol.Writes(h, |h| - 1, step)))
  {
    Protocol.StepSound(h, |h| - 1, step);
  }

  /** Any enabled step continues a run. */
  lemma Extend(h: History, steps: seq<Step>, step: Step) returns (h': History, steps': seq<Step>)
    requires Run(h, steps) && Protocol.Enabled(h, |h| - 1, step)
    ensures Run(h', steps') && Applicable(Last(h), Protocol.Writes(h, |h| - 1, step).cell)
    ensures Last(h') == Apply(Last(h), Protocol.Writes(h, |h| - 1, step)) && h' == h + [Last(h')] && steps' == steps + [step]
  {
    RunCoherent(h, steps, |h| - 1);
    GuardHolds(h, step);
    h', steps' := h + [Apply(Last(h), Protocol.Writes(h, |h| - 1, step))], steps + [step];
    RunExtends(h, steps, step, Last(h'));
  }
}
