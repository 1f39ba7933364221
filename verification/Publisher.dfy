/** The publisher: freezing, thresholded publication, and cleanup after it. */
module Publisher {
  import opened Basics
  import opened Candidate
  import opened CandidateSteps
  import opened Dimensions
  import opened Table
  import opened Observations

  datatype PublisherStep =
    | FreezeCandidate(candidate: CandidateId, r: nat, operation: nat, now: nat)
    | PublishCandidate(candidate: CandidateId, r: nat, pages: seq<PageRead>, now: nat)
    | SuppressCandidate(candidate: CandidateId, r: nat, pages: seq<PageRead>, now: nat)
    | CleanPair(candidate: CandidateId, r: nat, token: Token)
    | RetireCandidate(candidate: CandidateId, r: nat, u: nat)
    | ExpireFeature(event: EventId, now: nat)
    | ExpireOrphan(candidate: CandidateId, token: Token, now: nat)
    | RecoverPair(candidate: CandidateId, token: Token, checkpoint: Option<Checkpoint>, now: nat)
    | RecoverCheckpoint(candidate: CandidateId, checkpoint: Option<Checkpoint>)

  const PUBLICATION_PAGE := 100
  const PUBLICATION_PAGES := 5

  /** One page of a publication's input: when it was read and what it returned. */
  datatype PageRead = PageRead(at: nat, tokens: seq<Token>, last: Option<Token>)

  ghost predicate PageAt(h: History, c: CandidateId, r: nat, pages: seq<PageRead>, i: nat)
    requires i < |pages|
  {
    && r <= pages[i].at < |h| && c in h[pages[i].at].cells
    && CleanPage(h[pages[i].at].cells[c], if i == 0 then None else pages[i - 1].last, pages[i].tokens, pages[i].last, PUBLICATION_PAGE)
  }

  /** Consecutive pages of one candidate's contributions, each read at its own time. */
  ghost predicate PagesSeen(h: History, k: nat, c: CandidateId, r: nat, pages: seq<PageRead>)
    requires k < |h|
  {
    && 1 <= |pages| <= PUBLICATION_PAGES
    && pages[|pages| - 1].last.None?
    && (forall i :: 0 <= i < |pages| ==> PageAt(h, c, r, pages, i))
    && (forall i :: 0 <= i < |pages| ==> pages[i].at <= k && c in h[pages[i].at].cells)
    && (forall i :: 0 <= i < |pages| - 1 ==> pages[i].last.Some?)
  }

  /** The contributions collected from the first `n` pages, each as it was when its page was read. */
  function Collected(h: History, c: CandidateId, pages: seq<PageRead>, n: nat): Rows
    requires n <= |pages| && forall i :: 0 <= i < |pages| ==> pages[i].at < |h| && c in h[pages[i].at].cells
  {
    if n == 0 then map[]
    else
      var rows := h[pages[n - 1].at].cells[c].rows;
      Collected(h, c, pages, n - 1) + (map t | t in pages[n - 1].tokens && t in rows :: rows[t])
  }

  ghost predicate PublicationGuard(h: History, k: nat, c: CandidateId, r: nat, pages: seq<PageRead>)
    requires k < |h|
  {
    && r <= k && SeesSummary(h, r, c) && SummaryAt(h, r, c).phase.Frozen?
    && PagesSeen(h, k, c, r, pages)
    && SameStamp(h[k], c, SummaryAt(h, r, c))
    && h[k].cells[c].aggregate.None? && h[k].cells[c].period in h[k].closing
  }

  /** The guard of a step, evaluated against its reads and the state it commits to. */
  ghost predicate Enabled(h: History, k: nat, step: PublisherStep)
    requires k < |h|
  {
    var s := h[k];
    match step
    case FreezeCandidate(c, r, op, now) =>
      && r <= k && now <= s.clock && SeesSummary(h, r, c) && SummaryAt(h, r, c).phase.Open?
      && now >= (h[r].cells[c].period + 1) * PERIOD_SECONDS
      && SameStamp(s, c, SummaryAt(h, r, c)) && s.cells[c].checkpoint.None? && s.cells[c].period in s.closing
    case PublishCandidate(c, r, pages, now) =>
      && PublicationGuard(h, k, c, r, pages) && SummaryAt(h, r, c).expiresAt > now
      && var eligible := Unexpired(Collected(h, c, pages, |pages|), now);
      && |eligible| >= MINIMUM_CONTRIBUTORS && |eligible| + 4 <= MAX_ACTIONS
      && forall t :: t in eligible ==> PartOf(s, OwnerOf(s, c, t)).tombstone.None?
    case SuppressCandidate(c, r, pages, now) =>
      && PublicationGuard(h, k, c, r, pages)
      && (SummaryAt(h, r, c).expiresAt <= now || |Unexpired(Collected(h, c, pages, |pages|), now)| < MINIMUM_CONTRIBUTORS)
    case CleanPair(c, r, t) =>
      && r <= k && SeesSummary(h, r, c) && SummaryAt(h, r, c).phase.Final()
      && SameStamp(s, c, SummaryAt(h, r, c)) && LocatorOwned(s, c, t)
    case RetireCandidate(c, r, u) =>
      && r <= u <= k && SeesSummary(h, r, c) && SummaryAt(h, r, c).phase.Final()
      && SameStamp(s, c, SummaryAt(h, r, c)) && s.cells[c].checkpoint.None?
      && c in h[u].cells && h[u].cells[c].rows == map[] && h[u].cells[c].strays == map[]
    case ExpireFeature(e, now) =>
      && now <= s.clock && e in s.events
      && EventKey(e) in PartOf(s, s.events[e].owner).locators && PartOf(s, s.events[e].owner).locators[EventKey(e)] <= now
    case ExpireOrphan(c, t, now) =>
      && now <= s.clock && c in s.cells && s.cells[c].summary.None? && s.cells[c].checkpoint.None?
      && LocatorOwned(s, c, t)
      && PartOf(s, OwnerOf(s, c, t)).locators[CandidateKey(c)] <= now
    case RecoverPair(c, t, checkpoint, now) =>
      && now <= s.clock && c in s.cells && s.cells[c].summary.None? && s.cells[c].checkpoint == checkpoint
      && now >= Horizon(s.cells[c].period) && s.cells[c].period in s.closing
      && LocatorOwned(s, c, t)
    case RecoverCheckpoint(c, checkpoint) =>
      && c in s.cells && s.cells[c].summary.None? && s.cells[c].checkpoint == checkpoint && checkpoint.Some?
      && s.cells[c].period in s.closing
  }

  /** The writes of a step. */
  ghost function Writes(h: History, k: nat, step: PublisherStep): Transaction
    requires k < |h| && Enabled(h, k, step)
  {
    var s := h[k];
    match step
    case FreezeCandidate(c, r, op, now) =>
      NO_WRITES.(cell := Modify(c, Freeze(SummaryAt(h, r, c), Publication(op, now))))
    case PublishCandidate(c, r, pages, now) =>
      var seen := SummaryAt(h, r, c);
      var body := BodyOf(s.cells[c].bucket, s.cells[c].period, Collected(h, c, pages, |pages|), seen.phase.publication, now);
      NO_WRITES.(cell := Modify(c, Publish(seen, now, body)))
    case SuppressCandidate(c, r, pages, now) => NO_WRITES.(cell := Modify(c, Suppress(SummaryAt(h, r, c))))
    case CleanPair(c, r, t) => PairDeleted(s, c, t, EraseFinal(t))
    case RetireCandidate(c, r, u) => NO_WRITES.(cell := Modify(c, Retire))
    case ExpireFeature(e, now) =>
      NO_WRITES.(event := Some((e, WithoutRecords(s.events[e]))), locator := DropLocator(s.events[e].owner, EventKey(e)))
    case ExpireOrphan(c, t, now) => PairDeleted(s, c, t, EraseOrphan(t))
    case RecoverPair(c, t, checkpoint, now) => PairDeleted(s, c, t, EraseOrphan(t))
    case RecoverCheckpoint(c, checkpoint) => NO_WRITES.(cell := Modify(c, DropCheckpoint))
  }

  /** Pages of an unchanged partition collect exactly its contributions. */
  lemma {:induction false} CollectedUpTo(h: History, c: CandidateId, r: nat, rows: Rows, pages: seq<PageRead>, n: nat)
    requires n <= |pages| && forall i :: 0 <= i < |pages| ==> pages[i].at < |h| && c in h[pages[i].at].cells
    requires forall i :: 0 <= i < |pages| ==> h[pages[i].at].cells[c].rows == rows
    requires forall i :: 0 <= i < |pages| ==> PageAt(h, c, r, pages, i)
    requires forall i :: 0 <= i < |pages| - 1 ==> pages[i].last.Some?
    ensures forall t :: t in Collected(h, c, pages, n) ==> t in rows && Collected(h, c, pages, n)[t] == rows[t]
    ensures n > 0 ==> forall t :: t in rows && (pages[n - 1].last.None? || t <= pages[n - 1].last.value) ==> t in Collected(h, c, pages, n)
  {
    if n > 0 {
      CollectedUpTo(h, c, r, rows, pages, n - 1);
      assert PageAt(h, c, r, pages, n - 1);
    }
  }

  lemma StampFence(h: History, k: nat, c: CandidateId, r: nat, u: nat)
    requires Coherent(h, k) && r <= u <= k && SeesSummary(h, r, c) && !SummaryAt(h, r, c).phase.Final()
    requires SameStamp(h[k], c, SummaryAt(h, r, c))
    ensures h[k].cells[c].summary == Some(SummaryAt(h, r, c))
    ensures c in h[u].cells && h[u].cells[c].rows == h[k].cells[c].rows
  {
    VersionFence(h, k, r, u, c);
  }

  lemma StampOfFinal(h: History, k: nat, c: CandidateId, r: nat)
    requires Coherent(h, k) && r <= k && SeesSummary(h, r, c) && SummaryAt(h, r, c).phase.Final()
    requires SameStamp(h[k], c, SummaryAt(h, r, c))
    ensures h[k].cells[c].summary == Some(SummaryAt(h, r, c))
  {
    assert Later(h, r, k);
    assert CandidateSteps.Evolves(h[r].cells[c], h[k].cells[c]);
  }

  /** What a publication collected is exactly the candidate's contributions when it commits. */
  lemma CollectedAll(h: History, k: nat, c: CandidateId, r: nat, pages: seq<PageRead>)
    requires Coherent(h, k) && PublicationGuard(h, k, c, r, pages)
    ensures h[k].cells[c].summary == Some(SummaryAt(h, r, c))
    ensures Collected(h, c, pages, |pages|) == h[k].cells[c].rows
  {
    var rows := h[k].cells[c].rows;
    StampFence(h, k, c, r, k);
    forall i | 0 <= i < |pages| ensures h[pages[i].at].cells[c].rows == rows {
      assert PageAt(h, c, r, pages, i);
      StampFence(h, k, c, r, pages[i].at);
    }
    CollectedPages(h, k, c, r, pages, rows);
  }

  lemma CollectedPages(h: History, k: nat, c: CandidateId, r: nat, pages: seq<PageRead>, rows: Rows)
    requires k < |h| && PagesSeen(h, k, c, r, pages)
    requires forall i :: 0 <= i < |pages| ==> h[pages[i].at].cells[c].rows == rows
    ensures Collected(h, c, pages, |pages|) == rows
  {
    CollectedUpTo(h, c, r, rows, pages, |pages|);
  }

  lemma PublicationSound(h: History, k: nat, step: PublisherStep)
    requires k < |h| && Enabled(h, k, step) && (step.PublishCandidate? || step.SuppressCandidate?)
    requires h[k].cells[step.candidate].summary == Some(SummaryAt(h, step.r, step.candidate))
    requires Collected(h, step.candidate, step.pages, |step.pages|) == h[k].cells[step.candidate].rows
    ensures Sound(h[k], Writes(h, k, step))
  {
    CellOnlySound(h[k], step.candidate, Writes(h, k, step).cell.change);
  }

  lemma CleanupSound(h: History, k: nat, step: PublisherStep)
    requires k < |h| && Enabled(h, k, step) && (step.CleanPair? || step.RetireCandidate?)
    requires h[k].cells[step.candidate].summary == Some(SummaryAt(h, step.r, step.candidate))
    requires step.RetireCandidate? ==> h[k].cells[step.candidate].rows == map[]
    ensures Sound(h[k], Writes(h, k, step))
  {
    if step.CleanPair? {
      PairDeletedSound(h[k], step.candidate, step.token, EraseFinal(step.token));
    } else {
      CellOnlySound(h[k], step.candidate, Retire);
    }
  }

  lemma ExpirySound(h: History, k: nat, step: PublisherStep)
    requires k < |h| && Table.Inv(h[k]) && Enabled(h, k, step)
    requires step.ExpireFeature? || step.ExpireOrphan? || step.RecoverPair? || step.RecoverCheckpoint?
    ensures Sound(h[k], Writes(h, k, step))
  {
  }

  lemma StepSound(h: History, k: nat, step: PublisherStep)
    requires Coherent(h, k) && Enabled(h, k, step)
    ensures Sound(h[k], Writes(h, k, step))
  {
    if step.ExpireFeature? || step.ExpireOrphan? || step.RecoverPair? || step.RecoverCheckpoint? {
      assert SoundAt(h, k);
      ExpirySound(h, k, step);
    } else {
      CandidateStepSound(h, k, step);
    }
  }

  lemma CandidateStepSound(h: History, k: nat, step: PublisherStep)
    requires Coherent(h, k) && Enabled(h, k, step)
    requires step.FreezeCandidate? || step.PublishCandidate? || step.SuppressCandidate? || step.CleanPair? || step.RetireCandidate?
    ensures Sound(h[k], Writes(h, k, step))
  {
    match step
    case FreezeCandidate(c, r, op, now) => 
      StampFence(h, k, c, r, k);
      CellOnlySound(h[k], c, Freeze(SummaryAt(h, r, c), Publication(op, now)));
    case PublishCandidate(c, r, pages, now) =>
      CollectedAll(h, k, c, r, pages);
      PublicationSound(h, k, step);
    case SuppressCandidate(c, r, pages, now) =>
      CollectedAll(h, k, c, r, pages);
      PublicationSound(h, k, step);
    case CleanPair(c, r, t) =>
      StampOfFinal(h, k, c, r);
      CleanupSound(h, k, step);
    case RetireCandidate(c, r, u) =>
      StampOfFinal(h, k, c, r);
      FinalStaysEmpty(h, k, c, r, u);
      CleanupSound(h, k, step);
  }
}
