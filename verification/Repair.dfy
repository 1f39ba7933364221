/** The deletion worker's repair of candidates it erased from. */
module Repair {
  import opened Basics
  import opened Candidate
  import opened CandidateSteps
  import opened Table
  import opened Observations

  datatype RepairStep =
    | RecomputeRestart(worker: Worker, candidate: CandidateId, r: nat, q: nat, now: nat)
    | RecomputeAdvance(worker: Worker, candidate: CandidateId, r: nat, q: nat, u: nat, page: seq<Token>)
    | RecomputeFinish(worker: Worker, candidate: CandidateId, r: nat, q: nat, u: nat, page: seq<Token>)
    | DropOrphanCheckpoint(worker: Worker, candidate: CandidateId, r: nat)
    | CleanPublished(worker: Worker, candidate: CandidateId, r: nat, token: Token)
    | RetirePublished(worker: Worker, candidate: CandidateId, r: nat, u: nat)

  const PAGE_SIZE := 25

  ghost predicate RecomputeSeen(h: History, k: nat, w: Worker, c: CandidateId, r: nat, q: nat)
    requires k < |h|
  {
    && r <= q <= k && CommandLive(h[k], w) && SeesSummary(h, r, c) && c in h[q].cells
    && (SummaryAt(h, r, c).phase.Open? || SummaryAt(h, r, c).phase.Repairing?)
    && SummaryIs(h[k], c, SummaryAt(h, r, c))
    && h[k].cells[c].checkpoint == h[q].cells[c].checkpoint
    && (SummaryAt(h, r, c).phase.Repairing? ==> h[k].cells[c].aggregate.None?)
  }

  ghost predicate RecomputePageSeen(h: History, k: nat, w: Worker, c: CandidateId, r: nat, q: nat, u: nat, page: seq<Token>)
    requires k < |h|
  {
    && q <= u <= k && RecomputeSeen(h, k, w, c, r, q) && c in h[u].cells
    && h[q].cells[c].checkpoint.Some?
    && var saved := h[q].cells[c].checkpoint.value;
    && saved.summaryVersion == SummaryAt(h, r, c).version
    && |page| <= PAGE_SIZE
    && (forall i :: 0 <= i < |page| ==> page[i] in h[u].cells[c].rows)
    && FoldPage(saved.partial, h[u].cells[c].rows, page, |page|, saved.cutoff).Some?
  }

  /** The saved totals extended by the rows as they were when the page was read. */
  function FoldRead(h: History, c: CandidateId, q: nat, u: nat, page: seq<Token>): Partial
    requires q < |h| && u < |h| && c in h[q].cells && c in h[u].cells && h[q].cells[c].checkpoint.Some?
    requires forall i :: 0 <= i < |page| ==> page[i] in h[u].cells[c].rows
    requires var saved := h[q].cells[c].checkpoint.value;
             FoldPage(saved.partial, h[u].cells[c].rows, page, |page|, saved.cutoff).Some?
  {
    var saved := h[q].cells[c].checkpoint.value;
    FoldPage(saved.partial, h[u].cells[c].rows, page, |page|, saved.cutoff).value
  }

  /** The guard of a step, evaluated against its reads and the state it commits to. */
  ghost predicate Enabled(h: History, k: nat, step: RepairStep)
    requires k < |h|
  {
    var s := h[k];
    match step
    case RecomputeRestart(w, c, r, q, now) =>
      && RecomputeSeen(h, k, w, c, r, q) && now <= s.clock
      && (h[q].cells[c].checkpoint.Some? ==> h[q].cells[c].checkpoint.value.summaryVersion != SummaryAt(h, r, c).version)
    case RecomputeAdvance(w, c, r, q, u, page) =>
      && RecomputePageSeen(h, k, w, c, r, q, u, page) && page != []
      && CleanPage(h[u].cells[c], h[q].cells[c].checkpoint.value.cursor, page, Some(page[|page| - 1]), PAGE_SIZE)
    case RecomputeFinish(w, c, r, q, u, page) =>
      && RecomputePageSeen(h, k, w, c, r, q, u, page)
      && var saved := h[q].cells[c].checkpoint.value;
      && CleanPage(h[u].cells[c], saved.cursor, page, None, PAGE_SIZE)
      && var p := FoldRead(h, c, q, u, page);
      && (p.contributors == 0 || p.vectors > 0)
    case DropOrphanCheckpoint(w, c, r) =>
      && r <= k && CommandLive(s, w) && c in h[r].cells && h[r].cells[c].summary.None?
      && c in s.cells && s.cells[c].summary.None? && s.cells[c].checkpoint.Some?
    case CleanPublished(w, c, r, t) =>
      && r <= k && CommandLive(s, w) && SeesSummary(h, r, c) && SummaryAt(h, r, c).phase.Final()
      && SummaryIs(s, c, SummaryAt(h, r, c)) && LocatorOwned(s, c, t)
    case RetirePublished(w, c, r, u) =>
      && r <= u <= k && CommandLive(s, w) && SeesSummary(h, r, c) && SummaryAt(h, r, c).phase.Final()
      && SummaryIs(s, c, SummaryAt(h, r, c)) && s.cells[c].checkpoint.None?
      && c in h[u].cells && h[u].cells[c].rows == map[] && h[u].cells[c].strays == map[]
  }

  /** The writes of a step. */
  ghost function Writes(h: History, k: nat, step: RepairStep): Transaction
    requires k < |h| && Enabled(h, k, step)
  {
    var s := h[k];
    match step
    case RecomputeRestart(w, c, r, q, now) => NO_WRITES.(cell := Modify(c, Restart(SummaryAt(h, r, c), now)))
    case RecomputeAdvance(w, c, r, q, u, page) =>
      NO_WRITES.(cell := Modify(c, Advance(h[q].cells[c].checkpoint.value, page, FoldRead(h, c, q, u, page))))
    case RecomputeFinish(w, c, r, q, u, page) =>
      NO_WRITES.(cell := Modify(c, Finish(SummaryAt(h, r, c), h[q].cells[c].checkpoint.value, page, FoldRead(h, c, q, u, page))))
    case DropOrphanCheckpoint(w, c, r) => NO_WRITES.(cell := Modify(c, DropCheckpoint))
    case CleanPublished(w, c, r, t) => PairDeleted(s, c, t, EraseFinal(t))
    case RetirePublished(w, c, r, u) => NO_WRITES.(cell := Modify(c, Retire))
  }

  /** The rows a page was folded from are still the current ones when the fold is committed. */
  lemma PageStillCurrent(h: History, k: nat, w: Worker, c: CandidateId, r: nat, q: nat, u: nat, page: seq<Token>)
    requires Coherent(h, k) && RecomputePageSeen(h, k, w, c, r, q, u, page)
    ensures h[u].cells[c].rows == h[k].cells[c].rows && h[k].cells[c].summary == Some(SummaryAt(h, r, c))
    ensures h[k].cells[c].checkpoint == h[q].cells[c].checkpoint
  {
    VersionFence(h, k, r, u, c);
  }

  lemma AdvanceSound(h: History, k: nat, w: Worker, c: CandidateId, r: nat, q: nat, u: nat, page: seq<Token>)
    requires k < |h| && Enabled(h, k, RecomputeAdvance(w, c, r, q, u, page))
    requires h[u].cells[c].rows == h[k].cells[c].rows && h[k].cells[c].summary == Some(SummaryAt(h, r, c))
    requires h[k].cells[c].checkpoint == h[q].cells[c].checkpoint
    ensures Sound(h[k], Writes(h, k, RecomputeAdvance(w, c, r, q, u, page)))
  {
    CellOnlySound(h[k], c, Advance(h[q].cells[c].checkpoint.value, page, FoldRead(h, c, q, u, page)));
  }

  lemma FinishSound(h: History, k: nat, w: Worker, c: CandidateId, r: nat, q: nat, u: nat, page: seq<Token>)
    requires k < |h| && Enabled(h, k, RecomputeFinish(w, c, r, q, u, page))
    requires h[u].cells[c].rows == h[k].cells[c].rows && h[k].cells[c].summary == Some(SummaryAt(h, r, c))
    requires h[k].cells[c].checkpoint == h[q].cells[c].checkpoint
    ensures Sound(h[k], Writes(h, k, RecomputeFinish(w, c, r, q, u, page)))
  {
    CellOnlySound(h[k], c, Finish(SummaryAt(h, r, c), h[q].cells[c].checkpoint.value, page, FoldRead(h, c, q, u, page)));
  }

  lemma RetireSound(h: History, k: nat, w: Worker, c: CandidateId, r: nat, u: nat)
    requires Coherent(h, k) && Enabled(h, k, RetirePublished(w, c, r, u))
    ensures Sound(h[k], Writes(h, k, RetirePublished(w, c, r, u)))
  {
    FinalStaysEmpty(h, k, c, r, u);
    CellOnlySound(h[k], c, Retire);
  }

  lemma StepSound(h: History, k: nat, step: RepairStep)
    requires Coherent(h, k) && Enabled(h, k, step)
    ensures Sound(h[k], Writes(h, k, step))
  {
    match step
    case RecomputeRestart(w, c, r, q, now) => CellOnlySound(h[k], c, Restart(SummaryAt(h, r, c), now));
    case RecomputeAdvance(w, c, r, q, u, page) =>
      PageStillCurrent(h, k, w, c, r, q, u, page);
      AdvanceSound(h, k, w, c, r, q, u, page);
    case RecomputeFinish(w, c, r, q, u, page) =>
      PageStillCurrent(h, k, w, c, r, q, u, page);
      FinishSound(h, k, w, c, r, q, u, page);
    case DropOrphanCheckpoint(w, c, r) => CellOnlySound(h[k], c, DropCheckpoint);
    case CleanPublished(w, c, r, t) => PairDeletedSound(h[k], c, t, EraseFinal(t));
    case RetirePublished(w, c, r, u) => RetireSound(h, k, w, c, r, u);
  }
}
