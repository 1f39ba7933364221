/** A reachable orphan that recovery must leave alone: expired and closed, but one row in its partition
    is still live. It appears when the recomputation that removes the summary has read its last page. */
module OrphanExample {
  import opened Basics
  import opened Metadata
  import opened Candidate
  import opened CandidateSteps
  import opened Table
  import opened Observations
  import opened Protocol
  import opened Store
  import OrphanWorker
  import ClusterWriter
  import Repair
  import Surroundings

  type History = Observations.History
  type Step = Protocol.Step

  const DUE := 86400
  const OWNER := Partition(0, 1)
  const WORKER := Worker(2, 1)
  const ROW := Row(1, DUE, "en", true, [1.0], EMPTY)
  /** Of the period and well formed, but live long after the horizon. */
  const LIVE := Stray(true, 0, Horizon(0) + 1)

  lemma Started() returns (h: History, steps: seq<Step>)
    ensures Run(h, steps) && Last(h).clock == 0 && Last(h).ledgers == map[] && PartOf(Last(h), Partition(0, 5)).tombstone.None?
    ensures Last(h).cells == map[1 := ClusterWriter.FreshCell(0, "", 1, ROW)]
  {
    h, steps := [EMPTY_TABLE], [];
    h, steps := Extend(h, steps, Surround(Surroundings.AdmitFeature(1, OWNER, DUE)));
    h, steps := Extend(h, steps, Cluster(ClusterWriter.NewCandidate(1, |h| - 1, 1, "", ROW, 0, 1)));
  }

  const OPENED := ClusterWriter.FreshCell(0, "", 1, ROW)

  /** The contribution has expired, the period is closing, and a deletion command runs. */
  lemma Expired() returns (h: History, steps: seq<Step>)
    ensures Run(h, steps) && Last(h).clock == Horizon(0) && 0 in Last(h).closing && CommandLive(Last(h), WORKER)
    ensures Last(h).cells == map[1 := OPENED] && PartOf(Last(h), Partition(0, 5)).tombstone.None?
  {
    h, steps := Started();
    h, steps := Extend(h, steps, Surround(Surroundings.Request(2, 1, Withdrawal)));
    h, steps := Extend(h, steps, Surround(Surroundings.Tick(Horizon(0))));
    h, steps := Extend(h, steps, Surround(Surroundings.ClosePeriod(0)));
  }

  const BEGUN := OPENED.(checkpoint := Some(Checkpoint(1, 1, None, NOTHING, Horizon(0), DUE)))

  lemma Begun() returns (h: History, steps: seq<Step>)
    ensures Run(h, steps) && Last(h).clock == Horizon(0) && 0 in Last(h).closing && CommandLive(Last(h), WORKER)
    ensures Last(h).cells == map[1 := BEGUN] && PartOf(Last(h), Partition(0, 5)).tombstone.None?
  {
    h, steps := Expired();
    h, steps := Extend(h, steps, Mend(Repair.RecomputeRestart(WORKER, 1, |h| - 1, |h| - 1, Horizon(0))));
  }

  /** The stray appears after the last page has been read, at `u`. */
  lemma Strayed() returns (h: History, steps: seq<Step>, u: nat)
    ensures Run(h, steps) && Last(h).clock == Horizon(0) && 0 in Last(h).closing && CommandLive(Last(h), WORKER)
    ensures u < |h| && h[u].cells == map[1 := BEGUN] && Last(h).cells == map[1 := BEGUN.(strays := map[5 := LIVE])]
  {
    h, steps := Begun();
    u := |h| - 1;
    h, steps := Extend(h, steps, Surround(Surroundings.AppearRow(1, 5, LIVE, true)));
  }

  lemma Recomputed() returns (h: History, steps: seq<Step>)
    ensures Run(h, steps) && Last(h).clock == Horizon(0) && 0 in Last(h).closing
    ensures Last(h).cells == map[1 := OPENED.(summary := None, strays := map[5 := LIVE])]
  {
    var u;
    h, steps, u := Strayed();
    assert IsPage(h[u].cells[1].rows, None, [1], None, Repair.PAGE_SIZE);
    h, steps := Extend(h, steps, Mend(Repair.RecomputeFinish(WORKER, 1, u, u, u, [1])));
  }

  /** The state is reachable; so recovery refuses it without a step, by its contract. */
  lemma Reachable() returns (h: History, steps: seq<Step>)
    ensures Run(h, steps) && OrphanWorker.OrphanIn(Last(h), 1, 0) && Last(h).clock >= Horizon(0)
    ensures OrphanWorker.Spoilt(1, 0, Last(h).clock)(Last(h)) && !OrphanWorker.Recoverable(1, 0, Last(h).clock)(Last(h))
  {
    h, steps := Recomputed();
    var items := OrphanWorker.Contents(Last(h).cells[1]);
    assert 5 in items && items[5] == OrphanWorker.Odd(LIVE);
    assert !OrphanWorker.Acceptable(items[5], 0, Last(h).clock);
  }
}
