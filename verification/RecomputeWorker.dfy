/** The recomputation as the deletion worker performs it: one bounded piece of work per call, read
    by read, each write a conditional transaction. */
module RecomputeWorker {
  import opened Basics
  import opened Candidate
  import opened CandidateSteps
  import opened Table
  import opened Observations
  import opened Store
  import opened Protocol
  import opened Snapshot
  import opened Paging
  import Repair

  type History = Observations.History
  type Step = Protocol.Step

  datatype Outcome = Done(finished: bool) | Unavailable

  function Found(s: State, c: CandidateId): Option<Summary> {
    if c in s.cells then s.cells[c].summary else None
  }

  function Saved(s: State, c: CandidateId): Option<Checkpoint> {
    if c in s.cells then s.cells[c].checkpoint else None
  }

  function RowsOf(s: State, c: CandidateId): Rows {
    if c in s.cells then s.cells[c].rows else map[]
  }

  function StraysOf(s: State, c: CandidateId): map<Token, Stray> {
    if c in s.cells then s.cells[c].strays else map[]
  }

  function AggregateIn(s: State, c: CandidateId): Option<Aggregate> {
    if c in s.cells then s.cells[c].aggregate else None
  }

  /** A piece of one candidate's recomputation; it starts over only with a cutoff that its caller read
      from the clock. */
  predicate PieceOf(piece: Repair.RepairStep, w: Worker, c: CandidateId, readings: set<nat>) {
    piece.worker == w && piece.candidate == c && (piece.RecomputeRestart? ==> piece.now in readings)
  }

  /** Since then the worker has committed such pieces and nothing else. */
  ghost predicate Pieces(own: seq<Step>, from: nat, w: Worker, c: CandidateId, readings: set<nat>) {
    forall i :: from <= i < |own| ==> own[i].Mend? && PieceOf(own[i].mend, w, c, readings)
  }

  // ---------------------------------------------------------------- reading and folding a page

  /** The next contributions behind a cursor, in key order. */
  method ReadPage(rows: Rows, cursor: Option<Token>, limit: nat) returns (page: seq<Token>, last: Option<Token>)
    requires limit >= 1
    ensures IsPage(rows, cursor, page, last, limit)
  {
    page, last := NextKeys(rows.Keys, cursor, limit);
  }

  /** The loop over the rows of one page; a row that cannot be used stops it. */
  method FoldRows(saved: Checkpoint, rows: Rows, page: seq<Token>) returns (p: Option<Partial>)
    requires forall i :: 0 <= i < |page| ==> page[i] in rows
    ensures p == FoldPage(saved.partial, rows, page, |page|, saved.cutoff)
  {
    p := Some(saved.partial);
    var i := 0;
    while i < |page|
      invariant 0 <= i <= |page|
      invariant p == FoldPage(saved.partial, rows, page, i, saved.cutoff)
    {
      if p.Some? && rows[page[i]].expiresAt > saved.cutoff { p := AddRow(p.value, rows[page[i]]); }
      i := i + 1;
    }
  }

  // ---------------------------------------------------------------- conditions and writes

  function OrphanGuard(w: Worker, c: CandidateId, saved: Checkpoint): State -> bool {
    s => CommandLive(s, w) && c in s.cells && s.cells[c].summary.None? && s.cells[c].checkpoint == Some(saved)
  }

  /** The exact observed summary and checkpoint; while repairing, also the aggregate's absence. */
  function PageGuard(w: Worker, c: CandidateId, seen: Summary, saved: Option<Checkpoint>): State -> bool {
    s => CommandLive(s, w) && SummaryIs(s, c, seen) && s.cells[c].checkpoint == saved
         && (seen.phase.Repairing? ==> s.cells[c].aggregate.None?)
  }

  function Changing(c: CandidateId, ch: Change): State --> Transaction {
    s => NO_WRITES.(cell := Modify(c, ch))
  }

  lemma OrphanRefines(h: History, w: Worker, c: CandidateId, r: nat, saved: Checkpoint)
    requires r < |h| && c in h[r].cells && h[r].cells[c].summary.None?
    ensures AlwaysRefines(h, OrphanGuard(w, c, saved), Changing(c, DropCheckpoint), Mend(Repair.DropOrphanCheckpoint(w, c, r)))
  {
  }

  /** What a recomputation has read: the summary, then the checkpoint. */
  ghost predicate HasRead(h: History, c: CandidateId, r: nat, q: nat, seen: Summary, saved: Option<Checkpoint>) {
    && r <= q < |h| && SeesSummary(h, r, c) && SummaryAt(h, r, c) == seen
    && c in h[q].cells && h[q].cells[c].checkpoint == saved
    && (seen.phase.Open? || seen.phase.Repairing?)
  }

  lemma RestartRefines(h: History, w: Worker, c: CandidateId, r: nat, q: nat, seen: Summary, saved: Option<Checkpoint>, now: nat)
    requires HasRead(h, c, r, q, seen, saved) && now <= h[r].clock
    requires saved.Some? ==> saved.value.summaryVersion != seen.version
    ensures AlwaysRefines(h, PageGuard(w, c, seen, saved), Changing(c, Restart(seen, now)), Mend(Repair.RecomputeRestart(w, c, r, q, now)))
  {
    forall h': History | h <= h' && h' != [] && Coherent(h', |h'| - 1)
      ensures Refines(h', PageGuard(w, c, seen, saved), Changing(c, Restart(seen, now)), Mend(Repair.RecomputeRestart(w, c, r, q, now)))
    {
      assert Later(h', r, |h'| - 1);
    }
  }

  /** ... and then a page, folded onto the checkpoint. */
  ghost predicate HasFolded(h: History, c: CandidateId, r: nat, q: nat, u: nat, seen: Summary, saved: Checkpoint,
                            page: seq<Token>, last: Option<Token>, totals: Partial) {
    && HasRead(h, c, r, q, seen, Some(saved)) && q <= u < |h| && c in h[u].cells
    && saved.summaryVersion == seen.version
    && CleanPage(h[u].cells[c], saved.cursor, page, last, Repair.PAGE_SIZE)
    && FoldPage(saved.partial, h[u].cells[c].rows, page, |page|, saved.cutoff) == Some(totals)
  }

  lemma FoldedLater(h: History, h': History, c: CandidateId, r: nat, q: nat, u: nat, seen: Summary, saved: Checkpoint,
                    page: seq<Token>, last: Option<Token>, totals: Partial)
    requires h <= h' && HasFolded(h, c, r, q, u, seen, saved, page, last, totals)
    ensures HasFolded(h', c, r, q, u, seen, saved, page, last, totals)
  {
  }

  lemma AdvanceRefinesAt(h: History, w: Worker, c: CandidateId, r: nat, q: nat, u: nat, seen: Summary, saved: Checkpoint,
                         page: seq<Token>, last: Token, totals: Partial)
    requires h != [] && HasFolded(h, c, r, q, u, seen, saved, page, Some(last), totals)
    ensures Refines(h, PageGuard(w, c, seen, Some(saved)), Changing(c, Advance(saved, page, totals)),
                    Mend(Repair.RecomputeAdvance(w, c, r, q, u, page)))
  {
  }

  lemma AdvanceRefines(h: History, w: Worker, c: CandidateId, r: nat, q: nat, u: nat, seen: Summary, saved: Checkpoint,
                       page: seq<Token>, last: Token, totals: Partial)
    requires HasFolded(h, c, r, q, u, seen, saved, page, Some(last), totals)
    ensures AlwaysRefines(h, PageGuard(w, c, seen, Some(saved)), Changing(c, Advance(saved, page, totals)),
                          Mend(Repair.RecomputeAdvance(w, c, r, q, u, page)))
  {
    forall h': History | h <= h' && h' != [] && Coherent(h', |h'| - 1)
      ensures Refines(h', PageGuard(w, c, seen, Some(saved)), Changing(c, Advance(saved, page, totals)),
                      Mend(Repair.RecomputeAdvance(w, c, r, q, u, page)))
    {
      FoldedLater(h, h', c, r, q, u, seen, saved, page, Some(last), totals);
      AdvanceRefinesAt(h', w, c, r, q, u, seen, saved, page, last, totals);
    }
  }

  lemma FinishRefinesAt(h: History, w: Worker, c: CandidateId, r: nat, q: nat, u: nat, seen: Summary, saved: Checkpoint,
                        page: seq<Token>, totals: Partial)
    requires h != [] && HasFolded(h, c, r, q, u, seen, saved, page, None, totals) && (totals.contributors == 0 || totals.vectors > 0)
    ensures Refines(h, PageGuard(w, c, seen, Some(saved)), Changing(c, Finish(seen, saved, page, totals)),
                    Mend(Repair.RecomputeFinish(w, c, r, q, u, page)))
  {
  }

  lemma FinishRefines(h: History, w: Worker, c: CandidateId, r: nat, q: nat, u: nat, seen: Summary, saved: Checkpoint,
                      page: seq<Token>, totals: Partial)
    requires HasFolded(h, c, r, q, u, seen, saved, page, None, totals) && (totals.contributors == 0 || totals.vectors > 0)
    ensures AlwaysRefines(h, PageGuard(w, c, seen, Some(saved)), Changing(c, Finish(seen, saved, page, totals)),
                          Mend(Repair.RecomputeFinish(w, c, r, q, u, page)))
  {
    forall h': History | h <= h' && h' != [] && Coherent(h', |h'| - 1)
      ensures Refines(h', PageGuard(w, c, seen, Some(saved)), Changing(c, Finish(seen, saved, page, totals)),
                      Mend(Repair.RecomputeFinish(w, c, r, q, u, page)))
    {
      FoldedLater(h, h', c, r, q, u, seen, saved, page, None, totals);
      FinishRefinesAt(h', w, c, r, q, u, seen, saved, page, totals);
    }
  }

  /** The exact summary and aggregate, and the locator and contribution exactly as observed. */
  function CleanGuard(w: Worker, c: CandidateId, seen: Summary, aggregate: Option<Aggregate>, t: Token, expiresAt: nat): State -> bool {
    s => CommandLive(s, w) && SummaryIs(s, c, seen) && s.cells[c].aggregate == aggregate && PairOwned(s, c, t, expiresAt)
  }

  function RetireGuard(w: Worker, c: CandidateId, seen: Summary, aggregate: Option<Aggregate>): State -> bool {
    s => CommandLive(s, w) && SummaryIs(s, c, seen) && s.cells[c].aggregate == aggregate && s.cells[c].checkpoint.None?
  }

  function FrozenGuard(w: Worker, c: CandidateId, seen: Summary, t: Token): State -> bool {
    s => CommandLive(s, w) && SummaryIs(s, c, seen) && s.cells[c].aggregate.None? && s.cells[c].checkpoint.None?
         && t !in s.cells[c].rows && t !in s.cells[c].strays && CandidateKey(c) !in PartOf(s, OwnerOf(s, c, t)).locators
  }

  function Pairing(c: CandidateId, t: Token, ch: Change): State --> Transaction {
    (s: State) requires c in s.cells => PairDeleted(s, c, t, ch)
  }

  lemma CleanRefines(h: History, w: Worker, c: CandidateId, r: nat, seen: Summary, aggregate: Option<Aggregate>, t: Token, expiresAt: nat)
    requires SeesSummary(h, r, c) && SummaryAt(h, r, c) == seen && seen.phase.Final()
    ensures AlwaysRefines(h, CleanGuard(w, c, seen, aggregate, t, expiresAt), Pairing(c, t, EraseFinal(t)),
                          Mend(Repair.CleanPublished(w, c, r, t)))
  {
  }

  /** The partition holds no row at all, a stray included. */
  predicate EmptyCell(cell: Cell) { cell.rows == map[] && cell.strays == map[] }

  lemma NothingDue(cell: Cell)
    requires Deadlines(cell) == map[]
    ensures EmptyCell(cell)
  {
    assert forall t :: t in cell.rows || t in cell.strays ==> t in Deadlines(cell);
  }

  lemma RetireRefines(h: History, w: Worker, c: CandidateId, r: nat, u: nat, seen: Summary, aggregate: Option<Aggregate>)
    requires SeesSummary(h, r, c) && SummaryAt(h, r, c) == seen && seen.phase.Final()
    requires r <= u < |h| && c in h[u].cells && EmptyCell(h[u].cells[c])
    ensures AlwaysRefines(h, RetireGuard(w, c, seen, aggregate), Changing(c, Retire), Mend(Repair.RetirePublished(w, c, r, u)))
  {
  }

  // ---------------------------------------------------------------- facts about the running history

  lemma CandidateStays(h: History, steps: seq<Step>, i: nat, c: CandidateId)
    requires Run(h, steps) && i < |h| && c in h[i].cells
    ensures c in Last(h).cells && Last(h).cells[c].period == h[i].cells[c].period
  {
    RunEvolves(h, steps, i, |h| - 1);
    assert CandidateSteps.Evolves(h[i].cells[c], Last(h).cells[c]);
  }

  lemma ClockRuns(h: History, steps: seq<Step>, i: nat)
    requires Run(h, steps) && i < |h|
    ensures h[i].clock <= Last(h).clock
  {
    RunEvolves(h, steps, i, |h| - 1);
  }

  // ---------------------------------------------------------------- the worker

  lemma SummaryStaysGone(h: History, steps: seq<Step>, i: nat, c: CandidateId)
    requires Run(h, steps) && i < |h| && c in h[i].cells && h[i].cells[c].summary.None?
    ensures c in Last(h).cells && Last(h).cells[c].summary.None?
  {
    RunEvolves(h, steps, i, |h| - 1);
    assert CandidateSteps.Evolves(h[i].cells[c], Last(h).cells[c]);
  }

  /** Whatever candidate the change is admitted to, the claim holds of the result. */
  ghost predicate Achieves(ch: Change, claim: Cell -> bool) {
    forall cell :: Admissible(cell, ch) ==> claim(Next(cell, ch))
  }

  function Holding(c: CandidateId, claim: Cell -> bool): State -> bool {
    (s: State) => c in s.cells && claim(s.cells[c])
  }

  lemma ChangeEnsures(guard: State -> bool, c: CandidateId, ch: Change, claim: Cell -> bool)
    requires Achieves(ch, claim)
    ensures Ensures(guard, Changing(c, ch), Holding(c, claim))
  {
  }

  /** A transaction that changes one candidate alone. */
  method CommitChange(store: Store, guard: State -> bool, c: CandidateId, ch: Change, ghost claim: Cell -> bool, ghost step: Step)
      returns (answer: Answer)
    requires store.Valid() && AlwaysRefines(store.h, guard, Changing(c, ch), step) && Achieves(ch, claim)
    modifies store
    ensures store.Valid() && store.Continues()
    ensures store.own == old(store.own) || store.own == old(store.own) + [step]
    ensures answer.Committed? ==> |store.h| > |old(store.h)| && c in store.state.cells && claim(store.state.cells[c])
  {
    ChangeEnsures(guard, c, ch, claim);
    answer := store.Commit(guard, Changing(c, ch), Holding(c, claim), step);
  }

  lemma AtMostOnePiece(before: seq<Step>, own: seq<Step>, w: Worker, c: CandidateId, piece: Repair.RepairStep, readings: set<nat>)
    requires PieceOf(piece, w, c, readings) && (own == before || own == before + [Mend(piece)])
    ensures Pieces(own, |before|, w, c, readings)
  {
  }

  /** A transaction of the recomputation. */
  method CommitPiece(store: Store, guard: State -> bool, w: Worker, c: CandidateId, ch: Change, ghost claim: Cell -> bool,
                     ghost piece: Repair.RepairStep, ghost readings: set<nat>) returns (answer: Answer)
    requires store.Valid() && AlwaysRefines(store.h, guard, Changing(c, ch), Mend(piece)) && Achieves(ch, claim)
    requires PieceOf(piece, w, c, readings)
    modifies store
    ensures store.Valid() && store.Continues() && Pieces(store.own, |old(store.own)|, w, c, readings)
    ensures answer.Committed? ==> |store.h| > |old(store.h)| && c in store.state.cells && claim(store.state.cells[c])
  {
    answer := CommitChange(store, guard, c, ch, claim, Mend(piece));
    AtMostOnePiece(old(store.own), store.own, w, c, piece, readings);
  }

  function Gone(): Cell -> bool { (cell: Cell) => cell.checkpoint.None? && cell.summary.None? }

  /** A recomputation that has read nothing yet and leaves out what has expired by `now`. */
  function Begun(now: nat): Cell -> bool {
    (cell: Cell) => cell.checkpoint.Some? && cell.checkpoint.value.cutoff == now && cell.checkpoint.value.cursor.None?
  }

  function Anything(): Cell -> bool { (cell: Cell) => true }

  lemma DropSettles()
    ensures Achieves(DropCheckpoint, Gone())
  {
  }

  lemma RetireSettles()
    ensures Achieves(Retire, Gone())
  {
  }

  lemma RestartBegins(seen: Summary, now: nat)
    ensures Achieves(Restart(seen, now), Begun(now))
  {
  }

  lemma GoneIsRepaired(h: History, c: CandidateId)
    requires h != [] && c in Last(h).cells && Gone()(Last(h).cells[c])
    ensures RepairedAt(h, |h| - 1, c)
  {
  }

  /** A change after which nothing is left to repair. */
  method CommitSettling(store: Store, guard: State -> bool, w: Worker, c: CandidateId, ch: Change, ghost piece: Repair.RepairStep)
      returns (out: Outcome, ghost at: nat)
    requires store.Valid() && AlwaysRefines(store.h, guard, Changing(c, ch), Mend(piece)) && Achieves(ch, Gone())
    requires PieceOf(piece, w, c, {})
    modifies store
    ensures store.Valid() && store.Continues() && Pieces(store.own, |old(store.own)|, w, c, {})
    ensures out == Done(true) ==> |old(store.h)| <= at + 1 && RepairedAt(store.h, at, c)
  {
    var answer := CommitPiece(store, guard, w, c, ch, Gone(), piece, {});
    at := |store.h| - 1;
    if answer.Committed? {
      GoneIsRepaired(store.h, c);
      out := Done(true);
    } else {
      out := Unavailable;
    }
  }

  method DropOrphan(store: Store, w: Worker, c: CandidateId, saved: Checkpoint, ghost r: nat) returns (out: Outcome, ghost at: nat)
    requires store.Valid() && r < |store.h| && c in store.h[r].cells && store.h[r].cells[c].summary.None?
    modifies store
    ensures store.Valid() && store.Continues() && Pieces(store.own, |old(store.own)|, w, c, {})
    ensures out == Done(true) ==> |old(store.h)| <= at + 1 && RepairedAt(store.h, at, c)
  {
    OrphanRefines(store.h, w, c, r, saved);
    DropSettles();
    out, at := CommitSettling(store, OrphanGuard(w, c, saved), w, c, DropCheckpoint, Repair.DropOrphanCheckpoint(w, c, r));
  }

  method CleanOrphan(store: Store, w: Worker, c: CandidateId, ghost r: nat) returns (out: Outcome, ghost at: nat)
    requires store.Valid() && r < |store.h| && c in store.h[r].cells && store.h[r].cells[c].summary.None?
    modifies store
    ensures store.Valid() && store.Continues() && Pieces(store.own, |old(store.own)|, w, c, {})
    ensures out == Done(true) ==> |old(store.h)| <= at + 1 && RepairedAt(store.h, at, c)
  {
    store.Interfere();
    var saved := Saved(store.state, c);
    SummaryStaysGone(store.h, store.steps, r, c);
    if saved.None? {
      out, at := Done(true), |store.h| - 1;
    } else {
      out, at := DropOrphan(store, w, c, saved.value, r);
    }
  }

  method ErasePublished(store: Store, w: Worker, c: CandidateId, period: nat, seen: Summary, aggregate: Option<Aggregate>,
                        t: Token, expiresAt: nat, ghost r: nat) returns (answer: Answer)
    requires store.Valid() && SeesSummary(store.h, r, c) && SummaryAt(store.h, r, c) == seen && seen.phase.Final()
    modifies store
    ensures store.Valid() && store.Continues() && Pieces(store.own, |old(store.own)|, w, c, {})
  {
    store.Interfere();
    var locators := PartOf(store.state, Partition(period, t)).locators;
    if CandidateKey(c) !in locators || locators[CandidateKey(c)] != expiresAt { return Failed; }
    CleanRefines(store.h, w, c, r, seen, aggregate, t, expiresAt);
    answer := store.Commit(CleanGuard(w, c, seen, aggregate, t, expiresAt), Pairing(c, t, EraseFinal(t)), Whatever(),
                           Mend(Repair.CleanPublished(w, c, r, t)));
  }

  method RetirePublished(store: Store, w: Worker, c: CandidateId, seen: Summary, aggregate: Option<Aggregate>, ghost r: nat, ghost u: nat)
      returns (out: Outcome, ghost at: nat)
    requires store.Valid() && SeesSummary(store.h, r, c) && SummaryAt(store.h, r, c) == seen && seen.phase.Final()
    requires r <= u < |store.h| && c in store.h[u].cells && EmptyCell(store.h[u].cells[c])
    modifies store
    ensures store.Valid() && store.Continues() && Pieces(store.own, |old(store.own)|, w, c, {})
    ensures out == Done(true) ==> |old(store.h)| <= at + 1 && RepairedAt(store.h, at, c)
  {
    RetireRefines(store.h, w, c, r, u, seen, aggregate);
    RetireSettles();
    out, at := CommitSettling(store, RetireGuard(w, c, seen, aggregate), w, c, Retire, Repair.RetirePublished(w, c, r, u));
  }

  /** Erases the pairs of one page; `held` is what the partition held when the page was read. */
  method ErasePage(store: Store, w: Worker, c: CandidateId, period: nat, seen: Summary, aggregate: Option<Aggregate>,
                   held: map<Token, nat>, page: seq<Token>, ghost r: nat) returns (ok: bool)
    requires store.Valid() && SeesSummary(store.h, r, c) && SummaryAt(store.h, r, c) == seen && seen.phase.Final()
    requires forall i :: 0 <= i < |page| ==> page[i] in held
    modifies store
    ensures store.Valid() && store.Continues() && Pieces(store.own, |old(store.own)|, w, c, {})
  {
    var i := 0;
    while i < |page|
      invariant store.Valid() && store.Continues() && 0 <= i <= |page| && Pieces(store.own, |old(store.own)|, w, c, {})
      invariant SeesSummary(store.h, r, c) && SummaryAt(store.h, r, c) == seen
    {
      var answer := ErasePublished(store, w, c, period, seen, aggregate, page[i], held[page[i]], r);
      if answer.Failed? { return false; }
      i := i + 1;
    }
    ok := true;
  }

  /** Erases the contributions a published or suppressed candidate still has, ten at a time, then
      its summary. */
  method CleanPublished(store: Store, w: Worker, c: CandidateId, period: nat, seen: Summary, ghost r: nat) returns (out: Outcome, ghost at: nat)
    requires store.Valid() && SeesSummary(store.h, r, c) && SummaryAt(store.h, r, c) == seen && seen.phase.Final()
    modifies store
    ensures store.Valid() && store.Continues() && Pieces(store.own, |old(store.own)|, w, c, {})
    ensures out == Done(true) ==> |old(store.h)| <= at + 1 && RepairedAt(store.h, at, c)
  {
    out, at := Unavailable, 0;
    store.Interfere();
    var aggregate := AggregateIn(store.state, c);
    store.Interfere();
    ghost var u := |store.h| - 1;
    CandidateStays(store.h, store.steps, r, c);
    var held := Deadlines(store.state.cells[c]);
    var page, last := NextKeys(held.Keys, None, 10);
    if page != [] || last.Some? {
      var ok := ErasePage(store, w, c, period, seen, aggregate, held, page, r);
      return if ok then Done(false) else Unavailable, 0;
    }
    assert held == map[];
    NothingDue(store.state.cells[c]);
    store.Interfere();
    if Saved(store.state, c).Some? { return; }
    out, at := RetirePublished(store, w, c, seen, aggregate, r, u);
  }

  /** A frozen candidate needs no repair only if the exact erased pair is gone. */
  method RecheckFrozen(store: Store, w: Worker, c: CandidateId, seen: Summary, erased: Token) returns (out: Outcome, ghost at: nat)
    requires store.Valid() && seen.phase.Frozen?
    modifies store
    ensures store.Valid() && store.Continues() && store.own == old(store.own)
    ensures out == Done(true) ==> |old(store.h)| <= at + 1 && RepairedAt(store.h, at, c) && erased !in RowsOf(store.h[at], c)
  {
    var answer := store.Check(FrozenGuard(w, c, seen, erased));
    if answer.Committed? { return Done(true), |store.h| - 1; }
    return Unavailable, 0;
  }

  method StartOver(store: Store, w: Worker, c: CandidateId, seen: Summary, saved: Option<Checkpoint>, now: nat, ghost r: nat, ghost q: nat)
      returns (answer: Answer)
    requires store.Valid() && HasRead(store.h, c, r, q, seen, saved) && now <= store.h[r].clock
    requires saved.Some? ==> saved.value.summaryVersion != seen.version
    modifies store
    ensures store.Valid() && store.Continues() && Pieces(store.own, |old(store.own)|, w, c, {now})
    ensures answer.Committed? ==> c in store.state.cells && Begun(now)(store.state.cells[c])
  {
    RestartRefines(store.h, w, c, r, q, seen, saved, now);
    RestartBegins(seen, now);
    answer := CommitPiece(store, PageGuard(w, c, seen, saved), w, c, Change.Restart(seen, now), Begun(now),
                           Repair.RecomputeRestart(w, c, r, q, now), {now});
  }

  method SavePage(store: Store, w: Worker, c: CandidateId, seen: Summary, saved: Checkpoint, page: seq<Token>, last: Token, totals: Partial,
                 ghost r: nat, ghost q: nat, ghost u: nat) returns (answer: Answer)
    requires store.Valid() && HasFolded(store.h, c, r, q, u, seen, saved, page, Some(last), totals)
    modifies store
    ensures store.Valid() && store.Continues() && Pieces(store.own, |old(store.own)|, w, c, {})
  {
    AdvanceRefines(store.h, w, c, r, q, u, seen, saved, page, last, totals);
    answer := CommitPiece(store, PageGuard(w, c, seen, Some(saved)), w, c, Change.Advance(saved, page, totals), Anything(),
                           Repair.RecomputeAdvance(w, c, r, q, u, page), {});
  }

  lemma FinishedNow(h: History, steps: seq<Step>, w: Worker, c: CandidateId, r: nat, q: nat, u: nat, saved: Checkpoint, page: seq<Token>)
    requires Run(h, steps) && steps != [] && steps[|steps| - 1] == Mend(Repair.RecomputeFinish(w, c, r, q, u, page))
    requires q < |h| && c in h[q].cells && h[q].cells[c].checkpoint == Some(saved)
    ensures FinishedAt(h, |h| - 1, c) && h[|h| - 2].cells[c].checkpoint == Some(saved)
  {
    RecomputationIsSnapshot(h, steps, |steps| - 1, w, c, r, q, u, page);
    assert StepAt(h, steps, |steps| - 1);
  }

  method CommitFinish(store: Store, w: Worker, c: CandidateId, seen: Summary, saved: Checkpoint, page: seq<Token>, totals: Partial,
                      ghost r: nat, ghost q: nat, ghost u: nat) returns (answer: Answer)
    requires store.Valid() && HasFolded(store.h, c, r, q, u, seen, saved, page, None, totals)
    requires totals.contributors == 0 || totals.vectors > 0
    modifies store
    ensures store.Valid() && store.Continues() && Pieces(store.own, |old(store.own)|, w, c, {})
    ensures answer.Committed? ==> |store.h| > |old(store.h)| && store.steps != []
    ensures answer.Committed? ==> store.steps[|store.steps| - 1] == Mend(Repair.RecomputeFinish(w, c, r, q, u, page))
  {
    FinishRefines(store.h, w, c, r, q, u, seen, saved, page, totals);
    answer := store.Commit(PageGuard(w, c, seen, Some(saved)), Changing(c, Change.Finish(seen, saved, page, totals)), Whatever(),
                        Mend(Repair.RecomputeFinish(w, c, r, q, u, page)));
  }

  /** The last page; whatever was committed in between, its commit is a snapshot by the cutoff of the
      checkpoint that was read. */
  method FinishRepair(store: Store, w: Worker, c: CandidateId, seen: Summary, saved: Checkpoint, page: seq<Token>, totals: Partial,
                      ghost r: nat, ghost q: nat, ghost u: nat) returns (out: Outcome, ghost at: nat)
    requires store.Valid() && HasFolded(store.h, c, r, q, u, seen, saved, page, None, totals)
    modifies store
    ensures store.Valid() && store.Continues() && Pieces(store.own, |old(store.own)|, w, c, {})
    ensures out == Done(true) ==>
              |old(store.h)| <= at + 1 && FinishedAt(store.h, at, c) && store.h[at - 1].cells[c].checkpoint == Some(saved)
  {
    if totals.contributors != 0 && totals.vectors == 0 { return Unavailable, 0; }
    var answer := CommitFinish(store, w, c, seen, saved, page, totals, r, q, u);
    if answer.Committed? { FinishedNow(store.h, store.steps, w, c, r, q, u, saved, page); }
    out, at := if answer.Committed? then Done(true) else Unavailable, |store.h| - 1;
  }

  /** Reads a page, folds it and saves the totals or finishes. */
  method FoldNext(store: Store, w: Worker, c: CandidateId, seen: Summary, saved: Checkpoint, ghost r: nat, ghost q: nat)
      returns (out: Outcome, ghost at: nat)
    requires store.Valid() && HasRead(store.h, c, r, q, seen, Some(saved)) && saved.summaryVersion == seen.version
    modifies store
    ensures store.Valid() && store.Continues() && Pieces(store.own, |old(store.own)|, w, c, {})
    ensures out == Done(true) ==>
              |old(store.h)| <= at + 1 && FinishedAt(store.h, at, c) && store.h[at - 1].cells[c].checkpoint == Some(saved)
  {
    out, at := Unavailable, 0;
    store.Interfere();
    ghost var u := |store.h| - 1;
    CandidateStays(store.h, store.steps, r, c);
    var page, last := ReadPage(RowsOf(store.state, c), saved.cursor, Repair.PAGE_SIZE);
    // A page that met a stray is not taken further.
    if StrayOn(StraysOf(store.state, c), saved.cursor, last) { return; }
    var totals := FoldRows(saved, RowsOf(store.state, c), page);
    if totals.None? { return; }
    if last.Some? {
      var answer := SavePage(store, w, c, seen, saved, page, last.value, totals.value, r, q, u);
      if answer.Committed? { out := Done(false); }
    } else {
      out, at := FinishRepair(store, w, c, seen, saved, page, totals.value, r, q, u);
    }
  }

  /** One page of an open or repairing candidate: start over, go on, or finish. */
  method RepairPage(store: Store, w: Worker, c: CandidateId, seen: Summary, now: nat, ghost r: nat) returns (out: Outcome, ghost at: nat)
    requires store.Valid() && SeesSummary(store.h, r, c) && SummaryAt(store.h, r, c) == seen && now <= store.h[r].clock
    requires seen.phase.Open? || seen.phase.Repairing?
    modifies store
    ensures store.Valid() && store.Continues() && Pieces(store.own, |old(store.own)|, w, c, {now})
    ensures out == Done(true) ==> |old(store.h)| <= at + 1 && FinishedAt(store.h, at, c)
  {
    out, at := Unavailable, 0;
    store.Interfere();
    ghost var q := |store.h| - 1;
    CandidateStays(store.h, store.steps, r, c);
    var saved := Saved(store.state, c);
    if saved.None? || saved.value.summaryVersion != seen.version {
      var answer := StartOver(store, w, c, seen, saved, now, r, q);
      if answer.Committed? { out := Done(false); }
      return;
    }
    out, at := FoldNext(store, w, c, seen, saved.value, r, q);
  }

  /** One bounded piece of recomputation, which starts over only with this call's clock reading.
      `Done(true)` says that at some moment of this call no repair was outstanding. */
  method RecomputePage(store: Store, w: Worker, c: CandidateId, erased: Token, now: nat) returns (out: Outcome, ghost at: nat)
    requires store.Valid() && c in store.state.cells && now <= store.state.clock
    modifies store
    ensures store.Valid() && store.Continues() && Pieces(store.own, |old(store.own)|, w, c, {now})
    ensures out == Done(true) ==> |old(store.h)| <= at + 1 && RepairedAt(store.h, at, c)
  {
    ghost var start := |store.h| - 1;
    store.Interfere();
    ghost var r := |store.h| - 1;
    CandidateStays(store.h, store.steps, start, c);
    ClockRuns(store.h, store.steps, start);
    var summary := Found(store.state, c);
    if summary.None? {
      out, at := CleanOrphan(store, w, c, r);
    } else if summary.value.phase.Final() {
      out, at := CleanPublished(store, w, c, store.state.cells[c].period, summary.value, r);
    } else if summary.value.phase.Frozen? {
      out, at := RecheckFrozen(store, w, c, summary.value, erased);
    } else {
      out, at := RepairPage(store, w, c, summary.value, now, r);
      if out == Done(true) { FinishedRepairs(store.h, at, c); }
    }
  }
}
