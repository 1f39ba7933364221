/** A reachable state in which a sweeper that crashes after each finished recomputation does not reach
    the end of its pass before the rows expire: two contributors in one candidate, one of whom withdraws. */
module RestartExample {
  import opened Basics
  import opened Metadata
  import opened Candidate
  import opened CandidateSteps
  import opened Table
  import opened Observations
  import opened Fences
  import opened Protocol
  import opened Store
  import opened SweepTermination
  import ClusterWriter
  import Surroundings
  import Traversal
  import Erasure
  import opened SweepClock
  import opened SweepSchedule

  type History = Observations.History
  type Step = Protocol.Step

  const DUE := 86400
  const STAYS := Partition(0, 1)
  const LEAVES := Partition(0, 2)
  const WORKER := Worker(2, 1)
  const ROW := Row(1, DUE, "en", true, [1.0], EMPTY)

  /** Nothing is closed, deleted or due yet. */
  predicate Quiet(s: State) { s.clock == 0 && s.closing == {} }

  predicate Admitted(s: State, e: EventId, p: Partition) {
    && e in s.events && s.events[e] == Event(p, DUE, true, None)
    && PartOf(s, p).tombstone.None? && EventKey(e) in PartOf(s, p).locators
  }

  predicate Joined(s: State) {
    && 1 in s.cells && s.cells.Keys == {1} && s.cells[1].period == 0 && s.cells[1].checkpoint.None?
    && s.cells[1].summary.Some? && s.cells[1].summary.value.phase.Open?
    && s.cells[1].rows == map[1 := ROW, 2 := ROW] && s.cells[1].strays == map[]
    && PartOf(s, LEAVES).locators == map[EventKey(2) := DUE, CandidateKey(1) := DUE]
  }

  lemma TwoFeatures() returns (h: History, steps: seq<Step>)
    ensures Run(h, steps) && Quiet(Last(h)) && Admitted(Last(h), 1, STAYS) && Admitted(Last(h), 2, LEAVES)
    ensures Last(h).cells == map[] && Last(h).ledgers == map[] && PartOf(Last(h), LEAVES).locators == map[EventKey(2) := DUE]
    ensures CandidateKey(1) !in PartOf(Last(h), STAYS).locators
  {
    h, steps := [EMPTY_TABLE], [];
    h, steps := Extend(h, steps, Surround(Surroundings.AdmitFeature(1, STAYS, DUE)));
    h, steps := Extend(h, steps, Surround(Surroundings.AdmitFeature(2, LEAVES, DUE)));
  }

  lemma FirstContribution() returns (h: History, steps: seq<Step>)
    ensures Run(h, steps) && Quiet(Last(h)) && Admitted(Last(h), 2, LEAVES) && Last(h).ledgers == map[]
    ensures PartOf(Last(h), LEAVES).locators == map[EventKey(2) := DUE]
    ensures Last(h).cells == map[1 := ClusterWriter.FreshCell(0, "", 1, ROW)]
  {
    h, steps := TwoFeatures();
    h, steps := Extend(h, steps, Cluster(ClusterWriter.NewCandidate(1, |h| - 1, 1, "", ROW, 0, 1)));
  }

  lemma SecondContribution() returns (h: History, steps: seq<Step>)
    ensures Run(h, steps) && Quiet(Last(h)) && Joined(Last(h)) && Last(h).ledgers == map[] && PartOf(Last(h), LEAVES).tombstone.None?
  {
    h, steps := FirstContribution();
    h, steps := Extend(h, steps, Cluster(ClusterWriter.JoinCandidate(2, |h| - 1, |h| - 1, 1, ROW, 0, 1)));
  }

  lemma Withdrawn() returns (h: History, steps: seq<Step>)
    ensures Run(h, steps) && Quiet(Last(h)) && Joined(Last(h)) && CommandLive(Last(h), WORKER)
    ensures PartOf(Last(h), LEAVES).tombstone == Some(Tombstone(0, 86400, 0, None, 0, None))
  {
    h, steps := SecondContribution();
    h, steps := Extend(h, steps, Surround(Surroundings.Request(2, 1, Withdrawal)));
    h, steps := Extend(h, steps, Traverse(Traversal.EnsureFence(WORKER, 0, 1)));
  }

  const FOUND := Locator(CandidateKey(1), DUE)
  const SELECTED := Delete(1, None, FOUND, Some(FOUND.key))

  lemma Selected() returns (h: History, steps: seq<Step>)
    ensures Run(h, steps) && Quiet(Last(h)) && Joined(Last(h)) && CommandLive(Last(h), WORKER)
    ensures PartOf(Last(h), LEAVES).tombstone == Some(Tombstone(0, 86400, 2, Some(SELECTED), 0, None))
  {
    h, steps := Withdrawn();
    h, steps := Extend(h, steps, Traverse(Traversal.MoveCleanup(WORKER, 0, |h| - 1, |h| - 1, Seek(1, None))));
    assert Traversal.FirstLocator(PartOf(Last(h), LEAVES).locators, None, FOUND, Some(FOUND.key));
    h, steps := Extend(h, steps, Traverse(Traversal.MoveCleanup(WORKER, 0, |h| - 1, |h| - 1, SELECTED)));
  }

  lemma Erased() returns (h: History, steps: seq<Step>)
    ensures Run(h, steps) && Quiet(Last(h)) && CommandLive(Last(h), WORKER)
    ensures PartOf(Last(h), LEAVES).tombstone == Some(Tombstone(0, 86400, 3, Some(Recompute(1, None, FOUND, Some(FOUND.key))), 0, None))
    ensures Last(h).cells.Keys == {1} && Last(h).cells[1].rows == map[1 := ROW] && Last(h).cells[1].checkpoint.None?
    ensures Last(h).cells[1].summary.Some? && Last(h).cells[1].summary.value.phase.Open? && Last(h).cells[1].strays == map[]
  {
    h, steps := Selected();
    h, steps := Extend(h, steps, Traverse(Traversal.EraseContribution(WORKER, 0, |h| - 1, |h| - 1, |h| - 1)));
  }

  lemma OneRowUsable()
    ensures Usable(map[1 := ROW])
  {
  }

  lemma ErasedReady(s: State)
    requires Table.Inv(s) && CommandLive(s, WORKER) && Erasure.SweptPart(PartOf(s, LEAVES)) && PartOf(s, LEAVES).tombstone.Some?
    requires s.cells.Keys == {1} && s.cells[1].rows == map[1 := ROW] && s.cells[1].strays == map[]
    ensures Ready(s, WORKER, 0)
  {
    OneRowUsable();
  }

  /** Nothing but the remaining contribution is in the way of the sweep. */
  lemma OnlyRowInTheWay(s: State, c: CandidateId, u: Token)
    requires s.cells.Keys == {1} && s.cells[1].rows == map[1 := ROW] && s.cells[1].summary.Some? && s.cells[1].summary.value.phase.Open?
    requires CleanupAt(s, LEAVES) == Some(Recompute(1, None, FOUND, Some(FOUND.key)))
    ensures InTheWay(s, LEAVES, c, u) <==> c == 1 && u == 1
  {
    assert Names(CleanupAt(s, LEAVES), 1);
  }

  /** The state is reachable, and the one row that is in the way expires at `DUE`. */
  lemma Reachable() returns (h: History, steps: seq<Step>)
    ensures Run(h, steps) && Ready(Last(h), WORKER, 0) && Last(h).clock == 0
    ensures Last(h).cells.Keys == {1} && Last(h).cells[1].rows == map[1 := ROW]
    ensures forall c, u :: InTheWay(Last(h), LEAVES, c, u) <==> c == 1 && u == 1
  {
    h, steps := Erased();
    RunInv(h, steps, |h| - 1);
    Erasure.RunSwept(h, steps, |h| - 1, LEAVES);
    ErasedReady(Last(h));
    forall c, u ensures InTheWay(Last(h), LEAVES, c, u) <==> c == 1 && u == 1 { OnlyRowInTheWay(Last(h), c, u); }
  }

  lemma LastsWhile(s: State, times: Schedule)
    requires s.cells.Keys == {1} && s.cells[1].rows == map[1 := ROW] && forall c, u :: InTheWay(s, LEAVES, c, u) <==> c == 1 && u == 1
    ensures (exists c, u :: Lasts(s, LEAVES, c, u, times)) <==> Outlasts(DUE, times)
  {
    assert InTheWay(s, LEAVES, 1, 1);
    if Outlasts(DUE, times) { assert Lasts(s, LEAVES, 1, 1, times); }
  }

  /** From this reachable state a sweep can go on for ever by exactly those schedules that never reach
      `DUE`: not once the rows have expired. */
  lemma NotOnceTheRowsExpire(times: Schedule) returns (h: History, steps: seq<Step>)
    requires Rising(times)
    ensures Run(h, steps) && Ready(Last(h), WORKER, 0)
    ensures (exists run: nat -> Sweeper, turns: nat -> Turn :: Endless(Sweeper(Last(h), None), run, turns, times, WORKER, 0)) <==>
            Outlasts(DUE, times)
  {
    h, steps := Reachable();
    EndlessIffLasting(Sweeper(Last(h), None), times, WORKER, 0);
    LastsWhile(Last(h), times);
  }
}
