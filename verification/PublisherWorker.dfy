/** The publisher, one candidate and one phase at a time. */
module PublisherWorker {
  import opened Basics
  import opened Candidate
  import opened CandidateSteps
  import opened Dimensions
  import opened Table
  import opened Observations
  import opened Store
  import opened Protocol
  import opened RecomputeWorker
  import opened AggregateBuilder
  import opened Publisher
  import opened Paging

  type History = Observations.History
  type Step = Protocol.Step

  datatype Report = NowFrozen | StillRepairing | NowPublished | NowSuppressed | Cleaning(deleted: nat, complete: bool) | Refused

  // ---------------------------------------------------------------- collecting the contributions

  /** Consecutive pages read so far, none of them the last. */
  ghost predicate PagesSoFar(h: History, c: CandidateId, r: nat, pages: seq<PageRead>, cursor: Option<Token>) {
    && (forall i :: 0 <= i < |pages| ==> PageAt(h, c, r, pages, i))
    && (forall i :: 0 <= i < |pages| ==> pages[i].last.Some?)
    && Readable(h, c, pages)
    && cursor == if pages == [] then None else pages[|pages| - 1].last
  }

  ghost predicate Readable(h: History, c: CandidateId, pages: seq<PageRead>) {
    forall i :: 0 <= i < |pages| ==> pages[i].at < |h| && c in h[pages[i].at].cells
  }

  /** What the pages collected does not change as the history goes on or further pages are read. */
  lemma {:induction false} CollectedStays(h: History, h': History, c: CandidateId, pages: seq<PageRead>, more: seq<PageRead>, n: nat)
    requires h <= h' && pages <= more && n <= |pages| && Readable(h, c, pages) && Readable(h', c, more)
    ensures Collected(h', c, more, n) == Collected(h, c, pages, n)
  {
    if n > 0 { CollectedStays(h, h', c, pages, more, n - 1); }
  }

  ghost predicate Gathered(h: History, c: CandidateId, r: nat, pages: seq<PageRead>, cursor: Option<Token>, rows: Rows) {
    PagesSoFar(h, c, r, pages, cursor) && rows == Collected(h, c, pages, |pages|)
  }

  ghost predicate GatheredAll(h: History, c: CandidateId, r: nat, pages: seq<PageRead>, rows: Rows) {
    && h != [] && PagesSeen(h, |h| - 1, c, r, pages) && rows == Collected(h, c, pages, |pages|)
  }

  function OfPage(present: Rows, page: seq<Token>): Rows { map t | t in page && t in present :: present[t] }

  lemma PageStays(before: History, after: History, c: CandidateId, r: nat, pages: seq<PageRead>, more: seq<PageRead>, i: nat)
    requires i < |pages| && PageAt(before, c, r, pages, i) && before <= after && pages <= more
    ensures PageAt(after, c, r, more, i)
  {
    assert more[i] == pages[i] && (i > 0 ==> more[i - 1] == pages[i - 1]);
    assert after[pages[i].at] == before[pages[i].at];
  }

  lemma PageNew(after: History, c: CandidateId, r: nat, pages: seq<PageRead>, cursor: Option<Token>, page: seq<Token>, last: Option<Token>)
    requires r < |after| && c in Last(after).cells && cursor == (if pages == [] then None else pages[|pages| - 1].last)
    requires CleanPage(Last(after).cells[c], cursor, page, last, PUBLICATION_PAGE)
    ensures PageAt(after, c, r, pages + [PageRead(|after| - 1, page, last)], |pages|)
  {
    var more := pages + [PageRead(|after| - 1, page, last)];
    assert more[|pages|] == PageRead(|after| - 1, page, last);
    assert pages != [] ==> more[|pages| - 1] == pages[|pages| - 1];
  }

  lemma EveryPage(before: History, after: History, c: CandidateId, r: nat, pages: seq<PageRead>, more: seq<PageRead>)
    requires before <= after && more != [] && more[..|more| - 1] == pages && PageAt(after, c, r, more, |pages|)
    requires forall i :: 0 <= i < |pages| ==> PageAt(before, c, r, pages, i)
    ensures forall i :: 0 <= i < |more| ==> PageAt(after, c, r, more, i)
  {
    forall i | 0 <= i < |pages| ensures PageAt(after, c, r, more, i) {
      PageStays(before, after, c, r, pages, more, i);
    }
  }

  lemma LastsKnown(pages: seq<PageRead>, p: PageRead)
    requires forall i :: 0 <= i < |pages| ==> pages[i].last.Some?
    ensures forall i :: 0 <= i < |pages| ==> (pages + [p])[i].last.Some?
    ensures (pages + [p])[|pages|] == p && |pages + [p]| == |pages| + 1 && (pages + [p])[..|pages|] == pages
  {
  }

  lemma PagesGrow(before: History, after: History, c: CandidateId, r: nat, pages: seq<PageRead>, cursor: Option<Token>,
                  page: seq<Token>, last: Option<Token>)
    requires PagesSoFar(before, c, r, pages, cursor) && before <= after && r < |after| && c in Last(after).cells
    requires |pages| < PUBLICATION_PAGES && CleanPage(Last(after).cells[c], cursor, page, last, PUBLICATION_PAGE)
    ensures var more := pages + [PageRead(|after| - 1, page, last)];
            if last.Some? then PagesSoFar(after, c, r, more, last) else PagesSeen(after, |after| - 1, c, r, more)
  {
    var more := pages + [PageRead(|after| - 1, page, last)];
    assert forall i :: 0 <= i < |pages| ==> PageAt(before, c, r, pages, i);
    LastsKnown(pages, PageRead(|after| - 1, page, last));
    PageNew(after, c, r, pages, cursor, page, last);
    EveryPage(before, after, c, r, pages, more);
    PagesComplete(after, c, r, more, last);
  }

  lemma PagesComplete(h: History, c: CandidateId, r: nat, pages: seq<PageRead>, last: Option<Token>)
    requires h != [] && 1 <= |pages| <= PUBLICATION_PAGES && pages[|pages| - 1].last == last
    requires forall i :: 0 <= i < |pages| ==> PageAt(h, c, r, pages, i)
    requires forall i :: 0 <= i < |pages| - 1 ==> pages[i].last.Some?
    ensures if last.Some? then PagesSoFar(h, c, r, pages, last) else PagesSeen(h, |h| - 1, c, r, pages)
  {
    forall i | 0 <= i < |pages| ensures pages[i].at <= |h| - 1 && c in h[pages[i].at].cells { assert PageAt(h, c, r, pages, i); }
  }

  lemma RowsGrow(before: History, after: History, c: CandidateId, pages: seq<PageRead>, page: seq<Token>, last: Option<Token>)
    requires Readable(before, c, pages) && before <= after && after != [] && c in Last(after).cells
    ensures var more := pages + [PageRead(|after| - 1, page, last)];
            && Readable(after, c, more)
            && Collected(after, c, more, |more|) == Collected(before, c, pages, |pages|) + OfPage(Last(after).cells[c].rows, page)
  {
    CollectedStays(before, after, c, pages, pages + [PageRead(|after| - 1, page, last)], |pages|);
  }

  /** The next page's rows have been added; without a continuation that was all. */
  ghost predicate GatheredTo(h: History, c: CandidateId, r: nat, pages: seq<PageRead>, last: Option<Token>, rows: Rows) {
    if last.Some? then Gathered(h, c, r, pages, last, rows) else GatheredAll(h, c, r, pages, rows)
  }

  lemma PageGathered(before: History, after: History, c: CandidateId, r: nat, pages: seq<PageRead>, cursor: Option<Token>, rows: Rows,
                     present: Rows, page: seq<Token>, last: Option<Token>)
    requires Gathered(before, c, r, pages, cursor, rows) && before <= after && r < |after| && c in Last(after).cells
    requires present == Last(after).cells[c].rows
    requires |pages| < PUBLICATION_PAGES && CleanPage(Last(after).cells[c], cursor, page, last, PUBLICATION_PAGE)
    ensures GatheredTo(after, c, r, pages + [PageRead(|after| - 1, page, last)], last, rows + OfPage(present, page))
  {
    PagesGrow(before, after, c, r, pages, cursor, page, last);
    RowsGrow(before, after, c, pages, page, last);
  }

  method NextPage(store: Store, c: CandidateId, cursor: Option<Token>, ghost r: nat)
      returns (present: Rows, page: seq<Token>, last: Option<Token>, clean: bool)
    requires store.Valid() && r < |store.h| && c in store.h[r].cells
    modifies store
    ensures store.Valid() && store.Continues() && r < |store.h| && c in store.h[r].cells
    ensures c in Last(store.h).cells && present == Last(store.h).cells[c].rows
    ensures clean ==> CleanPage(Last(store.h).cells[c], cursor, page, last, PUBLICATION_PAGE)
  {
    store.Interfere();
    CandidateStays(store.h, store.steps, r, c);
    present := RowsOf(store.state, c);
    page, last := ReadPage(present, cursor, PUBLICATION_PAGE);
    clean := !StrayOn(StraysOf(store.state, c), cursor, last);
  }

  /** The rows collected so far, or all of them. */
  ghost function Collecting(c: CandidateId, r: nat): (History, seq<PageRead>, Option<Token>, Rows, bool) -> bool {
    (h: History, pages: seq<PageRead>, cursor: Option<Token>, rows: Rows, all: bool) =>
      (all ==> GatheredAll(h, c, r, pages, rows)) && (!all ==> Gathered(h, c, r, pages, cursor, rows))
  }

  lemma NothingCollected(h: History, c: CandidateId, r: nat, pages: seq<PageRead>, cursor: Option<Token>, rows: Rows)
    requires pages == [] && cursor.None? && rows == map[]
    ensures Collecting(c, r)(h, pages, cursor, rows, false)
  {
    var collecting := Collecting(c, r);
    assert Gathered(h, c, r, pages, cursor, rows);
    assert collecting(h, pages, cursor, rows, false);
  }

  lemma PageCollected(before: History, after: History, c: CandidateId, r: nat, pages: seq<PageRead>, cursor: Option<Token>, rows: Rows,
                      present: Rows, page: seq<Token>, last: Option<Token>)
    requires Collecting(c, r)(before, pages, cursor, rows, false) && before <= after && r < |after| && c in Last(after).cells
    requires present == Last(after).cells[c].rows
    requires |pages| < PUBLICATION_PAGES && CleanPage(Last(after).cells[c], cursor, page, last, PUBLICATION_PAGE)
    ensures Collecting(c, r)(after, pages + [PageRead(|after| - 1, page, last)], last, rows + OfPage(present, page), last.None?)
  {
    PageGathered(before, after, c, r, pages, cursor, rows, present, page, last);
  }

  /** Every contribution of an unchanged partition, read in at most five pages. A page that met a stray
      is not taken further. */
  method CollectPages(store: Store, c: CandidateId, ghost r: nat) returns (rows: Rows, ok: bool, ghost pages: seq<PageRead>)
    requires store.Valid() && r < |store.h| && c in store.h[r].cells
    modifies store
    ensures store.Valid() && store.Continues()
    ensures ok ==> GatheredAll(store.h, c, r, pages, rows)
  {
    rows, ok, pages := map[], false, [];
    var cursor: Option<Token>, i := None, 0;
    NothingCollected(store.h, c, r, pages, cursor, rows);
    while i < PUBLICATION_PAGES && !ok
      invariant store.Valid() && store.Continues() && 0 <= i <= PUBLICATION_PAGES && i == |pages|
      invariant r < |store.h| && c in store.h[r].cells
      invariant Collecting(c, r)(store.h, pages, cursor, rows, ok)
      decreases PUBLICATION_PAGES - i
    {
      ghost var before := store.h;
      var present, page, last, clean := NextPage(store, c, cursor, r);
      if !clean { return; }
      PageCollected(before, store.h, c, r, pages, cursor, rows, present, page, last);
      rows, pages := rows + OfPage(present, page), pages + [PageRead(|store.h| - 1, page, last)];
      i, ok, cursor := i + 1, last.None?, last;
    }
  }

  // ---------------------------------------------------------------- conditions and writes

  function FreezeGuard(c: CandidateId, seen: Summary): State -> bool {
    s => SameStamp(s, c, seen) && s.cells[c].checkpoint.None? && s.cells[c].period in s.closing
  }

  predicate Unfenced(s: State, period: nat, eligible: set<Token>) {
    forall t | t in eligible :: PartOf(s, Partition(period, t)).tombstone.None?
  }

  function PublishGuard(c: CandidateId, seen: Summary, period: nat, eligible: set<Token>): State -> bool {
    s => SameStamp(s, c, seen) && s.cells[c].aggregate.None? && s.cells[c].period in s.closing && Unfenced(s, period, eligible)
  }

  function CleanupGuard(c: CandidateId, seen: Summary, t: Token, expiresAt: nat): State -> bool {
    s => SameStamp(s, c, seen) && PairOwned(s, c, t, expiresAt) && s.cells[c].period in s.closing
  }

  function FinalGuard(c: CandidateId, seen: Summary): State -> bool {
    s => SameStamp(s, c, seen) && s.cells[c].checkpoint.None? && s.cells[c].period in s.closing
  }

  ghost predicate Saw(h: History, c: CandidateId, r: nat, seen: Summary) {
    SeesSummary(h, r, c) && SummaryAt(h, r, c) == seen
  }

  lemma FreezeRefines(h: History, c: CandidateId, r: nat, seen: Summary, op: nat, now: nat)
    requires Saw(h, c, r, seen) && seen.phase.Open? && now <= h[r].clock && now >= (h[r].cells[c].period + 1) * PERIOD_SECONDS
    ensures AlwaysRefines(h, FreezeGuard(c, seen), Changing(c, Freeze(seen, Publication(op, now))),
                          Publishing(FreezeCandidate(c, r, op, now)))
  {
    var step := Publishing(FreezeCandidate(c, r, op, now));
    forall h': History | h <= h' && h' != [] && Coherent(h', |h'| - 1)
      ensures Refines(h', FreezeGuard(c, seen), Changing(c, Freeze(seen, Publication(op, now))), step)
    {
      assert Later(h', r, |h'| - 1);
    }
  }

  lemma GatheredStays(h: History, h': History, c: CandidateId, r: nat, pages: seq<PageRead>, rows: Rows)
    requires GatheredAll(h, c, r, pages, rows) && h <= h'
    ensures PagesSeen(h', |h'| - 1, c, r, pages) && Collected(h', c, pages, |pages|) == rows
  {
    forall i | 0 <= i < |pages| ensures PageAt(h', c, r, pages, i) { PageStays(h, h', c, r, pages, pages, i); }
    CollectedStays(h, h', c, pages, pages, |pages|);
  }

  lemma SuppressRefines(h: History, c: CandidateId, r: nat, seen: Summary, pages: seq<PageRead>, rows: Rows, now: nat)
    requires Saw(h, c, r, seen) && seen.phase.Frozen? && GatheredAll(h, c, r, pages, rows)
    requires seen.expiresAt <= now || |Unexpired(rows, now)| < MINIMUM_CONTRIBUTORS
    ensures AlwaysRefines(h, PublishGuard(c, seen, h[r].cells[c].period, {}), Changing(c, Suppress(seen)),
                          Publishing(SuppressCandidate(c, r, pages, now)))
  {
    var guard := PublishGuard(c, seen, h[r].cells[c].period, {});
    var step := Publishing(SuppressCandidate(c, r, pages, now));
    forall h': History | h <= h' && h' != [] && Coherent(h', |h'| - 1) ensures Refines(h', guard, Changing(c, Suppress(seen)), step) {
      GatheredStays(h, h', c, r, pages, rows);
    }
  }

  lemma PeriodStays(h: History, c: CandidateId, r: nat)
    requires h != [] && Coherent(h, |h| - 1) && r < |h| && c in h[r].cells
    ensures c in Last(h).cells && Last(h).cells[c].period == h[r].cells[c].period && Last(h).cells[c].bucket == h[r].cells[c].bucket
  {
    assert Later(h, r, |h| - 1);
    assert CandidateSteps.Evolves(h[r].cells[c], Last(h).cells[c]);
  }

  lemma PublishRefines(h: History, c: CandidateId, r: nat, seen: Summary, pages: seq<PageRead>, rows: Rows, now: nat)
    requires Saw(h, c, r, seen) && seen.phase.Frozen? && GatheredAll(h, c, r, pages, rows)
    requires seen.expiresAt > now && MINIMUM_CONTRIBUTORS <= |Unexpired(rows, now)| && |Unexpired(rows, now)| + 4 <= MAX_ACTIONS
    ensures var body := BodyOf(h[r].cells[c].bucket, h[r].cells[c].period, rows, seen.phase.publication, now);
            AlwaysRefines(h, PublishGuard(c, seen, h[r].cells[c].period, Unexpired(rows, now)), Changing(c, Publish(seen, now, body)),
                          Publishing(PublishCandidate(c, r, pages, now)))
  {
    var period, bucket := h[r].cells[c].period, h[r].cells[c].bucket;
    var body := BodyOf(bucket, period, rows, seen.phase.publication, now);
    var guard := PublishGuard(c, seen, period, Unexpired(rows, now));
    var step := Publishing(PublishCandidate(c, r, pages, now));
    forall h': History | h <= h' && h' != [] && Coherent(h', |h'| - 1) ensures Refines(h', guard, Changing(c, Publish(seen, now, body)), step) {
      GatheredStays(h, h', c, r, pages, rows);
      PeriodStays(h', c, r);
      PublishRefinesAt(h', c, r, seen, pages, rows, now, period, bucket, body);
    }
  }

  lemma PublishRefinesAt(h: History, c: CandidateId, r: nat, seen: Summary, pages: seq<PageRead>, rows: Rows, now: nat,
                         period: nat, bucket: string, body: Body)
    requires h != [] && Saw(h, c, r, seen) && seen.phase.Frozen?
    requires PagesSeen(h, |h| - 1, c, r, pages) && Collected(h, c, pages, |pages|) == rows
    requires seen.expiresAt > now && MINIMUM_CONTRIBUTORS <= |Unexpired(rows, now)| && |Unexpired(rows, now)| + 4 <= MAX_ACTIONS
    requires c in Last(h).cells && Last(h).cells[c].period == period && Last(h).cells[c].bucket == bucket
    requires body == BodyOf(bucket, period, rows, seen.phase.publication, now)
    ensures Refines(h, PublishGuard(c, seen, period, Unexpired(rows, now)), Changing(c, Publish(seen, now, body)),
                    Publishing(PublishCandidate(c, r, pages, now)))
  {
  }

  lemma CleanupRefines(h: History, c: CandidateId, r: nat, seen: Summary, t: Token, expiresAt: nat)
    requires Saw(h, c, r, seen) && seen.phase.Final()
    ensures AlwaysRefines(h, CleanupGuard(c, seen, t, expiresAt), Pairing(c, t, EraseFinal(t)), Publishing(CleanPair(c, r, t)))
  {
  }

  lemma FinalRefines(h: History, c: CandidateId, r: nat, u: nat, seen: Summary)
    requires Saw(h, c, r, seen) && seen.phase.Final() && r <= u < |h| && c in h[u].cells && EmptyCell(h[u].cells[c])
    ensures AlwaysRefines(h, FinalGuard(c, seen), Changing(c, Retire), Publishing(RetireCandidate(c, r, u)))
  {
  }

  // ---------------------------------------------------------------- the worker

  function Froze(p: Publication): Cell -> bool {
    (cell: Cell) => cell.summary.Some? && cell.summary.value.phase == Frozen(p) && cell.checkpoint.None?
  }

  /** The aggregate and the digest in the summary are the same body over the present contributions. */
  ghost function PublishedBody(now: nat): Cell -> bool {
    (cell: Cell) =>
      && cell.summary.Some? && cell.summary.value.phase.Published?
      && cell.summary.value.phase.digest.category == cell.bucket && cell.summary.value.phase.digest.period == cell.period
      && Aggregates(cell.summary.value.phase.digest, cell.rows, Unexpired(cell.rows, now))
      && cell.summary.value.phase.digest.expiresAt == cell.summary.value.phase.publication.startedAt + 400 * 86400
      && cell.aggregate == Some(Aggregate(cell.summary.value.phase.digest, PendingReview, 1))
      && |Unexpired(cell.rows, now)| >= MINIMUM_CONTRIBUTORS
  }

  function Suppressing(): Cell -> bool {
    (cell: Cell) => cell.summary.Some? && cell.summary.value.phase.Suppressed? && cell.aggregate.None?
  }

  function Retired(): Cell -> bool { (cell: Cell) => cell.summary.None? && cell.checkpoint.None? && cell.rows == map[] }

  lemma FreezeAchieves(seen: Summary, p: Publication)
    ensures Achieves(Freeze(seen, p), Froze(p))
  {
  }

  lemma PublishAchieves(seen: Summary, now: nat, body: Body)
    ensures Achieves(Publish(seen, now, body), PublishedBody(now))
  {
    forall cell | Admissible(cell, Publish(seen, now, body)) ensures Aggregates(body, cell.rows, Unexpired(cell.rows, now)) {
      BodyAggregates(cell.bucket, cell.period, cell.rows, seen.phase.publication, now);
    }
  }

  lemma SuppressAchieves(seen: Summary)
    ensures Achieves(Suppress(seen), Suppressing())
  {
  }

  lemma RetireAchieves()
    ensures Achieves(Retire, Retired())
  {
  }

  method FreezeOpen(store: Store, c: CandidateId, seen: Summary, op: nat, now: nat, ghost r: nat) returns (report: Report)
    requires store.Valid() && Saw(store.h, c, r, seen) && seen.phase.Open?
    requires now <= store.h[r].clock && now >= (store.h[r].cells[c].period + 1) * PERIOD_SECONDS
    modifies store
    ensures store.Valid() && store.Continues() && (report.NowFrozen? || report.Refused?)
    ensures report.NowFrozen? ==> c in store.state.cells && Froze(Publication(op, now))(store.state.cells[c])
  {
    store.Interfere();
    if AggregateIn(store.state, c).Some? { return Refused; }
    FreezeRefines(store.h, c, r, seen, op, now);
    FreezeAchieves(seen, Publication(op, now));
    var answer := CommitChange(store, FreezeGuard(c, seen), c, Freeze(seen, Publication(op, now)), Froze(Publication(op, now)),
                               Publishing(FreezeCandidate(c, r, op, now)));
    report := if answer.Committed? then NowFrozen else Refused;
  }

  method PublishRows(store: Store, c: CandidateId, bucket: string, period: nat, seen: Summary, rows: Rows, now: nat, ghost r: nat, ghost pages: seq<PageRead>)
      returns (report: Report)
    requires store.Valid() && Saw(store.h, c, r, seen) && seen.phase.Frozen? && GatheredAll(store.h, c, r, pages, rows)
    requires bucket == store.h[r].cells[c].bucket && period == store.h[r].cells[c].period
    requires seen.expiresAt > now && MINIMUM_CONTRIBUTORS <= |Unexpired(rows, now)| && |Unexpired(rows, now)| + 4 <= MAX_ACTIONS
    modifies store
    ensures store.Valid() && store.Continues() && (report.NowPublished? || report.Refused?)
    ensures report.NowPublished? ==> c in store.state.cells && PublishedBody(now)(store.state.cells[c])
  {
    var body := BuildBody(bucket, period, rows, seen.phase.publication, now);
    PublishRefines(store.h, c, r, seen, pages, rows, now);
    PublishAchieves(seen, now, body);
    var answer := CommitChange(store, PublishGuard(c, seen, period, Unexpired(rows, now)), c, Publish(seen, now, body), PublishedBody(now),
                               Publishing(PublishCandidate(c, r, pages, now)));
    report := if answer.Committed? then NowPublished else Refused;
  }

  method SuppressRows(store: Store, c: CandidateId, period: nat, seen: Summary, rows: Rows, now: nat, ghost r: nat, ghost pages: seq<PageRead>)
      returns (report: Report)
    requires store.Valid() && Saw(store.h, c, r, seen) && seen.phase.Frozen? && GatheredAll(store.h, c, r, pages, rows)
    requires period == store.h[r].cells[c].period
    requires seen.expiresAt <= now || |Unexpired(rows, now)| < MINIMUM_CONTRIBUTORS
    modifies store
    ensures store.Valid() && store.Continues() && (report.NowSuppressed? || report.Refused?)
    ensures report.NowSuppressed? ==> c in store.state.cells && Suppressing()(store.state.cells[c])
  {
    SuppressRefines(store.h, c, r, seen, pages, rows, now);
    SuppressAchieves(seen);
    var answer := CommitChange(store, PublishGuard(c, seen, period, {}), c, Suppress(seen), Suppressing(),
                               Publishing(SuppressCandidate(c, r, pages, now)));
    report := if answer.Committed? then NowSuppressed else Refused;
  }

  /** Recounts the frozen contributions and publishes or suppresses them, whole or not at all. */
  method PublishFrozen(store: Store, c: CandidateId, bucket: string, period: nat, seen: Summary, now: nat, ghost r: nat) returns (report: Report)
    requires store.Valid() && Saw(store.h, c, r, seen) && seen.phase.Frozen?
    requires bucket == store.h[r].cells[c].bucket && period == store.h[r].cells[c].period
    modifies store
    ensures store.Valid() && store.Continues() && (report.NowPublished? || report.NowSuppressed? || report.Refused?)
    ensures report.NowPublished? ==> c in store.state.cells && PublishedBody(now)(store.state.cells[c])
    ensures report.NowSuppressed? ==> c in store.state.cells && Suppressing()(store.state.cells[c])
  {
    var rows, ok, pages := CollectPages(store, c, r);
    if !ok { return Refused; }
    var eligible := Unexpired(rows, now);
    if seen.expiresAt <= now || |eligible| < MINIMUM_CONTRIBUTORS {
      report := SuppressRows(store, c, period, seen, rows, now, r, pages);
    } else if |eligible| + 4 > MAX_ACTIONS {
      report := Refused;
    } else {
      report := PublishRows(store, c, bucket, period, seen, rows, now, r, pages);
    }
  }

  method ErasePair(store: Store, c: CandidateId, period: nat, seen: Summary, t: Token, expiresAt: nat, ghost r: nat) returns (answer: Answer)
    requires store.Valid() && Saw(store.h, c, r, seen) && seen.phase.Final()
    modifies store
    ensures store.Valid() && store.Continues()
  {
    store.Interfere();
    var locators := PartOf(store.state, Partition(period, t)).locators;
    if CandidateKey(c) !in locators || locators[CandidateKey(c)] != expiresAt { return Failed; }
    CleanupRefines(store.h, c, r, seen, t, expiresAt);
    answer := store.Commit(CleanupGuard(c, seen, t, expiresAt), Pairing(c, t, EraseFinal(t)), Whatever(), Publishing(CleanPair(c, r, t)));
  }

  method RetireEmpty(store: Store, c: CandidateId, seen: Summary, ghost r: nat, ghost u: nat) returns (report: Report)
    requires store.Valid() && Saw(store.h, c, r, seen) && seen.phase.Final()
    requires r <= u < |store.h| && c in store.h[u].cells && EmptyCell(store.h[u].cells[c])
    modifies store
    ensures store.Valid() && store.Continues() && (report == Cleaning(0, true) || report.Refused?)
    ensures report.Cleaning? ==> c in store.state.cells && Retired()(store.state.cells[c])
  {
    FinalRefines(store.h, c, r, u, seen);
    RetireAchieves();
    var answer := CommitChange(store, FinalGuard(c, seen), c, Retire, Retired(), Publishing(RetireCandidate(c, r, u)));
    report := if answer.Committed? then Cleaning(0, true) else Refused;
  }

  /** Erases the pairs of one page; `held` is what the partition held when the page was read. */
  method ErasePage(store: Store, c: CandidateId, period: nat, seen: Summary, held: map<Token, nat>, page: seq<Token>, ghost r: nat)
      returns (deleted: nat, ok: bool)
    requires store.Valid() && Saw(store.h, c, r, seen) && seen.phase.Final()
    requires forall i :: 0 <= i < |page| ==> page[i] in held
    modifies store
    ensures store.Valid() && store.Continues() && deleted <= |page| && (ok ==> deleted == |page|)
  {
    deleted := 0;
    while deleted < |page|
      invariant store.Valid() && store.Continues() && deleted <= |page| && Saw(store.h, c, r, seen)
    {
      var answer := ErasePair(store, c, period, seen, page[deleted], held[page[deleted]], r);
      if answer.Failed? { return deleted, false; }
      deleted := deleted + 1;
    }
    ok := true;
  }

  /** At most ten owned pairs; the summary goes only after an empty read, in which a stray would show. */
  method CleanFinal(store: Store, c: CandidateId, period: nat, seen: Summary, ghost r: nat) returns (report: Report)
    requires store.Valid() && Saw(store.h, c, r, seen) && seen.phase.Final()
    modifies store
    ensures store.Valid() && store.Continues() && (report.Cleaning? || report.Refused?)
    ensures report.Cleaning? && report.complete ==> c in store.state.cells && Retired()(store.state.cells[c])
    ensures report.Cleaning? ==> report.deleted <= 10
  {
    store.Interfere();
    ghost var u := |store.h| - 1;
    CandidateStays(store.h, store.steps, r, c);
    var held := Deadlines(store.state.cells[c]);
    var page, last := NextKeys(held.Keys, None, 10);
    if page != [] || last.Some? {
      var deleted, ok := ErasePage(store, c, period, seen, held, page, r);
      return if ok then Cleaning(deleted, false) else Refused;
    }
    assert held == map[];
    NothingDue(store.state.cells[c]);
    report := RetireEmpty(store, c, seen, r, u);
  }

  /** One phase of one candidate; what it reports is what its last transaction left. */
  method Process(store: Store, c: CandidateId, op: nat, now: nat) returns (report: Report)
    requires store.Valid() && now <= store.state.clock
    modifies store
    ensures store.Valid() && store.Continues()
    ensures report.NowFrozen? ==> c in store.state.cells && Froze(Publication(op, now))(store.state.cells[c])
    ensures report.NowPublished? ==> c in store.state.cells && PublishedBody(now)(store.state.cells[c])
    ensures report.NowSuppressed? ==> c in store.state.cells && Suppressing()(store.state.cells[c])
    ensures report.Cleaning? && report.complete ==> c in store.state.cells && Retired()(store.state.cells[c])
  {
    ghost var start := |store.h| - 1;
    store.Interfere();
    ghost var r := |store.h| - 1;
    ClockRuns(store.h, store.steps, start);
    var summary := Found(store.state, c);
    if summary.None? { return Refused; }
    var period, bucket := store.state.cells[c].period, store.state.cells[c].bucket;
    if now < (period + 1) * PERIOD_SECONDS || period !in store.state.closing { return Refused; }
    match summary.value.phase
    case Open => report := FreezeOpen(store, c, summary.value, op, now, r);
    case Repairing(_) => report := StillRepairing;
    case Frozen(_) => report := PublishFrozen(store, c, bucket, period, summary.value, now, r);
    case _ => report := CleanFinal(store, c, period, summary.value, r);
  }
}
