/** Draining the partition of a candidate whose summary is gone: validate every row of it before
    erasing any, ten pairs a call. */
module OrphanWorker {
  import opened Basics
  import opened Candidate
  import opened CandidateSteps
  import opened Table
  import opened Observations
  import opened Store
  import opened Protocol
  import opened RecomputeWorker
  import opened Publisher
  import opened Paging

  type History = Observations.History
  type Step = Protocol.Step

  const PAGE := 25
  const PAGES := 4
  const PAIRS := 10

  /** A row as the partition holds it: a contribution, or one that no worker of the protocol wrote. */
  datatype Item = Own(row: Row) | Odd(stray: Stray)
  type Items = map<Token, Item>

  function Expiry(item: Item): nat {
    match item case Own(row) => row.expiresAt case Odd(stray) => stray.expiresAt
  }

  function Contents(cell: Cell): Items {
    map t | t in cell.rows.Keys + cell.strays.Keys :: if t in cell.rows then Own(cell.rows[t]) else Odd(cell.strays[t])
  }

  /** Well formed, of this period, and expired. */
  predicate Acceptable(item: Item, period: nat, now: nat) {
    Expiry(item) <= now && (item.Odd? ==> item.stray.wellFormed && item.stray.period == period)
  }

  predicate AllAcceptable(items: Items, period: nat, now: nat) {
    forall t | t in items :: Acceptable(items[t], period, now)
  }

  /** The locator derived from the row is there, exactly. */
  predicate Owns(s: State, c: CandidateId, period: nat, t: Token, item: Item) {
    var l := PartOf(s, Partition(period, t)).locators;
    CandidateKey(c) in l && l[CandidateKey(c)] == Expiry(item) && (item.Odd? ==> item.stray.period == period)
  }

  predicate AllOwned(s: State, c: CandidateId, period: nat, items: Items) {
    forall t | t in items :: Owns(s, c, period, t, items[t])
  }

  /** Four pages of 25 rows hold the partition, its checkpoint row included, and show its end. */
  predicate Fits(n: nat, checkpoint: bool) { n + (if checkpoint then 1 else 0) < PAGES * PAGE }

  /** `found` is how many rows the call read. */
  datatype Recovery = Refused | Erasing(found: nat, erased: set<Token>) | EmptyObserved

  // ---------------------------------------------------------------- an orphan only shrinks

  predicate Orphan(s: State, c: CandidateId) { c in s.cells && s.cells[c].summary.None? }

  predicate OrphanIn(s: State, c: CandidateId, period: nat) {
    Orphan(s, c) && s.cells[c].period == period && period in s.closing
  }

  ghost predicate OrphanAt(h: History, r: nat, c: CandidateId) {
    r < |h| && Orphan(h[r], c)
  }

  ghost function ContentsAt(h: History, r: nat, c: CandidateId): Items
    requires r < |h| && c in h[r].cells
  {
    Contents(h[r].cells[c])
  }

  lemma ContentsShrink(a: Cell, b: Cell)
    requires CandidateSteps.Inv(a) && CandidateSteps.Evolves(a, b) && a.summary.None?
    ensures b.summary.None? && b.period == a.period && Shrinks(Contents(a), Contents(b))
  {
  }

  lemma OrphanLater(h: History, steps: seq<Step>, i: nat, j: nat, c: CandidateId)
    requires Run(h, steps) && i <= j < |h| && OrphanAt(h, i, c)
    ensures OrphanAt(h, j, c) && Shrinks(ContentsAt(h, i, c), ContentsAt(h, j, c)) && h[j].cells[c].period == h[i].cells[c].period
  {
    RunInv(h, steps, i);
    RunEvolves(h, steps, i, j);
    assert CandidateSteps.Inv(h[i].cells[c]) && CandidateSteps.Evolves(h[i].cells[c], h[j].cells[c]);
    ContentsShrink(h[i].cells[c], h[j].cells[c]);
  }

  lemma OrphanStays(h: History, steps: seq<Step>, r: nat, c: CandidateId)
    requires Run(h, steps) && OrphanAt(h, r, c)
    ensures Orphan(Last(h), c) && OrphanAt(h, |h| - 1, c) && Shrinks(ContentsAt(h, r, c), Contents(Last(h).cells[c])) && Last(h).cells[c].period == h[r].cells[c].period
  {
    OrphanLater(h, steps, r, |h| - 1, c);
  }

  // ---------------------------------------------------------------- reading the partition

  /** Everything up to the cursor that is still there has been read. */
  ghost predicate ReadTo(present: Items, items: Items, cursor: Option<Token>) {
    forall t :: t in present && (cursor.None? || t <= cursor.value) ==> t in items && items[t] == present[t]
  }

  ghost predicate ReadBefore(present: Items, items: Items, cursor: Option<Token>) {
    cursor.Some? ==> ReadTo(present, items, cursor)
  }

  function OnPage(present: Items, page: seq<Token>): Items { map t | t in page && t in present :: present[t] }

  lemma PageReadTo(present: Items, items: Items, cursor: Option<Token>, page: seq<Token>, last: Option<Token>)
    requires ReadBefore(present, items, cursor) && IsPageOf(present.Keys, cursor, page, last, PAGE)
    ensures ReadTo(present, items + OnPage(present, page), last)
  {
    forall t | t in present && (last.None? || t <= last.value)
      ensures t in items + OnPage(present, page) && (items + OnPage(present, page))[t] == present[t]
    {
      if !(cursor.Some? && t <= cursor.value) { assert Behind(t, cursor); }
    }
  }

  /** Of an unchanging partition, exactly what lies up to the cursor has been read. */
  ghost predicate ReadExactly(present: Items, items: Items, cursor: Option<Token>) {
    items.Keys == KeysUpTo(present.Keys, cursor) && Shrinks(present, items)
  }

  lemma OnPageKeys(present: Items, page: seq<Token>)
    requires forall i :: 0 <= i < |page| ==> page[i] in present
    ensures OnPage(present, page).Keys == KeysOf(page) && Shrinks(present, OnPage(present, page))
  {
  }

  lemma JoinedItems(present: Items, items: Items, more: Items, keys: set<Token>)
    requires Shrinks(present, items) && Shrinks(present, more) && items.Keys + more.Keys == keys
    ensures (items + more).Keys == keys && Shrinks(present, items + more)
    ensures keys == present.Keys ==> items + more == present
  {
  }

  lemma PageReadExactly(present: Items, items: Items, cursor: Option<Token>, page: seq<Token>, last: Option<Token>)
    requires ReadExactly(present, items, cursor) && IsPageOf(present.Keys, cursor, page, last, PAGE)
    ensures |(items + OnPage(present, page)).Keys| == |items.Keys| + |page|
    ensures if last.Some? then ReadExactly(present, items + OnPage(present, page), last) else items + OnPage(present, page) == present
  {
    PagePasses(present.Keys, cursor, page, last, PAGE);
    OnPageKeys(present, page);
    JoinedItems(present, items, OnPage(present, page), KeysUpTo(present.Keys, cursor) + KeysOf(page));
  }

  lemma StillReadBefore(before: Items, present: Items, items: Items, cursor: Option<Token>)
    requires ReadBefore(before, items, cursor) && Shrinks(before, present)
    ensures ReadBefore(present, items, cursor)
  {
  }

  /** The partition at one moment. */
  method PresentItems(store: Store, c: CandidateId, ghost r: nat) returns (present: Items)
    requires store.Valid() && OrphanAt(store.h, r, c)
    modifies store
    ensures store.Valid() && store.Continues() && store.own == old(store.own)
    ensures OrphanAt(store.h, r, c) && c in store.state.cells
    ensures present == Contents(store.state.cells[c]) && Shrinks(ContentsAt(store.h, r, c), present)
    ensures c in old(store.state).cells && Shrinks(Contents(old(store.state).cells[c]), present)
    ensures store.Alone() ==> store.state == old(store.state)
  {
    ghost var before := |store.h| - 1;
    OrphanStays(store.h, store.steps, r, c);
    store.Interfere();
    OrphanStays(store.h, store.steps, before, c);
    OrphanStays(store.h, store.steps, r, c);
    present := Contents(store.state.cells[c]);
  }

  /** What the pages read so far amount to. */
  ghost predicate Gathered(present: Items, items: Items, cursor: Option<Token>, first: Items) {
    ReadBefore(present, items, cursor) && Shrinks(first, items)
  }

  lemma PageGathers(before: Items, present: Items, items: Items, cursor: Option<Token>, first: Items, page: seq<Token>, last: Option<Token>)
    requires Gathered(before, items, cursor, first) && Shrinks(before, present) && Shrinks(first, present)
    requires IsPageOf(present.Keys, cursor, page, last, PAGE)
    ensures Gathered(present, items + OnPage(present, page), last, first)
    ensures last.None? ==> ReadTo(present, items + OnPage(present, page), None)
  {
    StillReadBefore(before, present, items, cursor);
    PageReadTo(present, items, cursor, page, last);
  }

  /** The state of a partition read after `pages` full pages: what was read covers what is still
      there, and undisturbed it is exactly the first `pages` pages. */
  ghost predicate Reading(present: Items, items: Items, cursor: Option<Token>, first: Items, alone: bool, pages: nat) {
    && Gathered(present, items, cursor, first)
    && (alone ==> ReadExactly(present, items, cursor) && |items.Keys| == PAGE * pages)
  }

  /** The same after the last page, of `size` rows. */
  ghost predicate WasRead(present: Items, items: Items, first: Items, alone: bool, pages: nat, size: nat) {
    && ReadTo(present, items, None) && Shrinks(first, items)
    && (alone ==> items == present && |present.Keys| == PAGE * pages + size)
  }

  lemma PageReads(before: Items, present: Items, items: Items, cursor: Option<Token>, first: Items, alone: bool, pages: nat,
                  page: seq<Token>, last: Option<Token>)
    requires Reading(before, items, cursor, first, alone, pages) && Shrinks(before, present) && Shrinks(first, present)
    requires alone ==> before == present
    requires IsPageOf(present.Keys, cursor, page, last, PAGE) && (last.Some? <==> |page| == PAGE)
    ensures var all := items + OnPage(present, page);
            if last.Some? then Reading(present, all, last, first, alone, pages + 1) else WasRead(present, all, first, alone, pages, |page|)
  {
    PageGathers(before, present, items, cursor, first, page, last);
    if alone { PageReadExactly(present, items, cursor, page, last); }
  }

  method ReadMore(store: Store, c: CandidateId, cursor: Option<Token>, items: Items, ghost r: nat, ghost alone: bool, ghost pages: nat)
      returns (all: Items, last: Option<Token>, size: nat)
    requires store.Valid() && OrphanAt(store.h, r, c)
    requires c in store.state.cells && Reading(Contents(store.state.cells[c]), items, cursor, ContentsAt(store.h, r, c), alone, pages)
    modifies store
    ensures store.Valid() && store.Continues() && store.own == old(store.own)
    ensures OrphanAt(store.h, r, c) && c in store.state.cells
    ensures store.Alone() ==> store.state == old(store.state)
    ensures size <= PAGE && (last.Some? <==> size == PAGE)
    ensures last.Some? ==> Reading(Contents(store.state.cells[c]), all, last, ContentsAt(store.h, r, c), alone && store.Alone(), pages + 1)
    ensures last.None? ==> WasRead(Contents(store.state.cells[c]), all, ContentsAt(store.h, r, c), alone && store.Alone(), pages, size)
  {
    ghost var before, first := Contents(store.state.cells[c]), ContentsAt(store.h, r, c);
    var present := PresentItems(store, c, r);
    var page;
    page, last := NextKeys(present.Keys, cursor, PAGE);
    PageReads(before, present, items, cursor, first, alone && store.Alone(), pages, page, last);
    all, size := items + OnPage(present, page), |page|;
  }

  /** What is known when the reading ends. */
  ghost predicate ReadAll(present: Items, items: Items, first: Items, alone: bool, checkpoint: bool, ok: bool) {
    && Shrinks(first, items) && (ok ==> ReadTo(present, items, None))
    && (alone ==> (ok <==> Fits(|present.Keys|, checkpoint)) && (ok ==> items == present))
  }

  lemma LastRead(present: Items, items: Items, first: Items, alone: bool, pages: nat, size: nat, checkpoint: bool)
    requires WasRead(present, items, first, alone, pages, size) && size < PAGE && pages < PAGES
    ensures ReadAll(present, items, first, alone, checkpoint, !(checkpoint && size + 1 == PAGE && pages + 1 == PAGES))
  {
  }

  /** The whole partition in at most four pages; a truncated read proves nothing. Undisturbed, it
      succeeds exactly if the partition fits, and returns exactly its rows. */
  method ReadPartition(store: Store, c: CandidateId, checkpoint: bool, ghost r: nat) returns (items: Items, ok: bool)
    requires store.Valid() && OrphanAt(store.h, r, c)
    modifies store
    ensures store.Valid() && store.Continues() && store.own == old(store.own)
    ensures OrphanAt(store.h, r, c) && c in store.state.cells
    ensures store.Alone() ==> store.state == old(store.state)
    ensures ReadAll(Contents(store.state.cells[c]), items, ContentsAt(store.h, r, c), store.Alone(), checkpoint, ok)
  {
    items, ok := map[], false;
    OrphanStays(store.h, store.steps, r, c);
    var cursor: Option<Token> := None;
    var i := 0;
    while i < PAGES
      invariant store.Valid() && store.Continues() && 0 <= i <= PAGES && store.own == old(store.own) && !ok
      invariant OrphanAt(store.h, r, c) && c in store.state.cells
      invariant store.Alone() ==> store.state == old(store.state)
      invariant Reading(Contents(store.state.cells[c]), items, cursor, ContentsAt(store.h, r, c), store.Alone(), i)
    {
      var last, size;
      items, last, size := ReadMore(store, c, cursor, items, r, store.Alone(), i);
      if last.None? {
        // The checkpoint, when there is one, is the partition's last row.
        LastRead(Contents(store.state.cells[c]), items, ContentsAt(store.h, r, c), store.Alone(), i, size, checkpoint);
        ok := !(checkpoint && size + 1 == PAGE && i + 1 == PAGES);
        return;
      }
      cursor, i := last, i + 1;
    }
    TooManyRead(Contents(store.state.cells[c]), items, cursor, ContentsAt(store.h, r, c), store.Alone(), checkpoint);
  }

  lemma TooManyRead(present: Items, items: Items, cursor: Option<Token>, first: Items, alone: bool, checkpoint: bool)
    requires Reading(present, items, cursor, first, alone, PAGES)
    ensures alone ==> !Fits(|present.Keys|, checkpoint)
  {
    if alone { SubsetSize(items.Keys, present.Keys); }
  }

  /** Reads the owned locator of every row before anything is erased. */
  method VerifyOwned(store: Store, c: CandidateId, period: nat, items: Items) returns (ok: bool)
    requires store.Valid()
    modifies store
    ensures store.Valid() && store.Continues() && store.own == old(store.own)
    ensures store.Alone() ==> store.state == old(store.state) && (ok <==> AllOwned(store.state, c, period, items))
  {
    var left := items.Keys;
    while left != {}
      invariant store.Valid() && store.Continues() && store.own == old(store.own) && left <= items.Keys
      invariant store.Alone() ==> store.state == old(store.state)
      invariant store.Alone() ==> forall t :: t in items && t !in left ==> Owns(store.state, c, period, t, items[t])
      decreases left
    {
      var t :| t in left;
      store.Interfere();
      if !Owns(store.state, c, period, t, items[t]) { return false; }
      left := left - {t};
    }
    ok := true;
  }

  // ---------------------------------------------------------------- conditions and writes

  predicate MayErase(s: State, c: CandidateId, t: Token, item: Item, checkpoint: Option<Checkpoint>) {
    && c in s.cells && s.cells[c].summary.None? && s.cells[c].checkpoint == checkpoint && s.cells[c].period in s.closing
    && PairOwned(s, c, t, Expiry(item)) && (t in Contents(s.cells[c]) ==> Contents(s.cells[c])[t] == item)
  }

  function EraseGuard(c: CandidateId, t: Token, item: Item, checkpoint: Option<Checkpoint>): State -> bool {
    (s: State) => MayErase(s, c, t, item, checkpoint)
  }

  predicate StillBare(s: State, c: CandidateId, checkpoint: Option<Checkpoint>) {
    c in s.cells && s.cells[c].summary.None? && s.cells[c].checkpoint == checkpoint && s.cells[c].period in s.closing
  }

  function BareGuard(c: CandidateId, checkpoint: Option<Checkpoint>): State -> bool { (s: State) => StillBare(s, c, checkpoint) }

  lemma EraseRefinesAt(h: History, c: CandidateId, t: Token, item: Item, checkpoint: Option<Checkpoint>, now: nat)
    requires h != [] && now <= Last(h).clock && (c in Last(h).cells ==> now >= Horizon(Last(h).cells[c].period))
    ensures Refines(h, EraseGuard(c, t, item, checkpoint), Pairing(c, t, EraseOrphan(t)), Publishing(RecoverPair(c, t, checkpoint, now)))
  {
  }

  lemma StillDue(h: History, c: CandidateId, now: nat, r: nat)
    requires h != [] && Coherent(h, |h| - 1) && OrphanAt(h, r, c) && now <= h[r].clock && now >= Horizon(h[r].cells[c].period)
    ensures now <= Last(h).clock && c in Last(h).cells && now >= Horizon(Last(h).cells[c].period)
  {
    assert Later(h, r, |h| - 1);
    assert CandidateSteps.Evolves(h[r].cells[c], Last(h).cells[c]);
  }

  lemma EraseRefines(h: History, c: CandidateId, t: Token, item: Item, checkpoint: Option<Checkpoint>, now: nat, r: nat)
    requires OrphanAt(h, r, c) && now <= h[r].clock && now >= Horizon(h[r].cells[c].period)
    ensures AlwaysRefines(h, EraseGuard(c, t, item, checkpoint), Pairing(c, t, EraseOrphan(t)), Publishing(RecoverPair(c, t, checkpoint, now)))
  {
    forall h': History | h <= h' && h' != [] && Coherent(h', |h'| - 1)
      ensures Refines(h', EraseGuard(c, t, item, checkpoint), Pairing(c, t, EraseOrphan(t)), Publishing(RecoverPair(c, t, checkpoint, now)))
    {
      StillDue(h', c, now, r);
      EraseRefinesAt(h', c, t, item, checkpoint, now);
    }
  }

  lemma DropRefines(h: History, c: CandidateId, checkpoint: Checkpoint)
    ensures AlwaysRefines(h, BareGuard(c, Some(checkpoint)), Changing(c, DropCheckpoint), Publishing(RecoverCheckpoint(c, Some(checkpoint))))
  {
  }

  function Without(c: CandidateId, t: Token): State -> bool { (s: State) => c in s.cells && t !in Contents(s.cells[c]) }

  lemma EraseRemoves(c: CandidateId, t: Token, item: Item, checkpoint: Option<Checkpoint>)
    ensures Ensures(EraseGuard(c, t, item, checkpoint), Pairing(c, t, EraseOrphan(t)), Without(c, t))
  {
    var guard, writes, claim := EraseGuard(c, t, item, checkpoint), Pairing(c, t, EraseOrphan(t)), Without(c, t);
    forall s | guard(s) && writes.requires(s) && Applicable(s, writes(s).cell) ensures claim(Apply(s, writes(s))) {
      PairRemoved(s, c, t);
    }
  }

  lemma PairRemoved(s: State, c: CandidateId, t: Token)
    requires c in s.cells && Applicable(s, PairDeleted(s, c, t, EraseOrphan(t)).cell)
    ensures Without(c, t)(Apply(s, PairDeleted(s, c, t, EraseOrphan(t))))
  {
  }

  // ---------------------------------------------------------------- an undisturbed erasure

  /** The orphan holds exactly these rows, each with its locator, and its period is closing. */
  ghost predicate Holds(s: State, c: CandidateId, period: nat, items: Items, checkpoint: Option<Checkpoint>) {
    && c in s.cells && s.cells[c].summary.None? && s.cells[c].period == period && period in s.closing
    && s.cells[c].checkpoint == checkpoint && Contents(s.cells[c]) == items && AllOwned(s, c, period, items)
  }

  lemma HoldsErases(s: State, c: CandidateId, period: nat, items: Items, checkpoint: Option<Checkpoint>, t: Token)
    requires Holds(s, c, period, items, checkpoint) && t in items && s.cells[c].rows.Keys !! s.cells[c].strays.Keys
    ensures MayErase(s, c, t, items[t], checkpoint)
  {
    assert Owns(s, c, period, t, items[t]);
    assert items[t] == if t in s.cells[c].rows then Own(s.cells[c].rows[t]) else Odd(s.cells[c].strays[t]);
  }

  lemma ErasedHolds(s: State, c: CandidateId, period: nat, items: Items, checkpoint: Option<Checkpoint>, t: Token, x: Transaction)
    requires Holds(s, c, period, items, checkpoint) && t in items && x == PairDeleted(s, c, t, EraseOrphan(t))
    requires Sound(s, x)
    ensures Holds(Apply(s, x), c, period, items - {t}, checkpoint)
  {
    var n := Apply(s, x);
    assert Contents(n.cells[c]) == items - {t};
    forall u | u in items - {t} ensures Owns(n, c, period, u, (items - {t})[u]) {
      assert Owns(s, c, period, u, items[u]);
      PartAfter(s, x, Partition(period, u));
    }
  }

  lemma StepErases(h: History, steps: seq<Step>, c: CandidateId, t: Token, checkpoint: Option<Checkpoint>, now: nat)
      returns (x: Transaction)
    requires Run(h, steps) && steps != [] && steps[|steps| - 1] == Publishing(RecoverPair(c, t, checkpoint, now))
    ensures c in h[|steps| - 1].cells && x == PairDeleted(h[|steps| - 1], c, t, EraseOrphan(t))
    ensures Sound(h[|steps| - 1], x) && Last(h) == Apply(h[|steps| - 1], x)
  {
    x := RunTransaction(h, steps, |steps| - 1);
    RecoverWrites(h[..|steps|], |steps| - 1, c, t, checkpoint, now);
  }

  lemma RecoverWrites(h: History, k: nat, c: CandidateId, t: Token, checkpoint: Option<Checkpoint>, now: nat)
    requires k < |h| && Protocol.Enabled(h, k, Publishing(RecoverPair(c, t, checkpoint, now)))
    ensures c in h[k].cells && Protocol.Writes(h, k, Publishing(RecoverPair(c, t, checkpoint, now))) == PairDeleted(h[k], c, t, EraseOrphan(t))
  {
  }

  /** The transactions of a call: each erases one of the rows read, or the checkpoint. */
  ghost predicate ErasesRead(step: Step, c: CandidateId, items: Items) {
    match step
    case Publishing(RecoverPair(candidate, t, _, _)) => candidate == c && t in items
    case Publishing(RecoverCheckpoint(candidate, _)) => candidate == c
    case _ => false
  }

  ghost predicate OnlyErases(before: seq<Step>, after: seq<Step>, c: CandidateId, items: Items) {
    before <= after && forall i :: |before| <= i < |after| ==> ErasesRead(after[i], c, items)
  }

  method CommitPair(store: Store, c: CandidateId, t: Token, item: Item, checkpoint: Option<Checkpoint>, now: nat, ghost r: nat)
      returns (answer: Answer)
    requires store.Valid() && OrphanAt(store.h, r, c) && now <= store.h[r].clock && now >= Horizon(store.h[r].cells[c].period)
    modifies store
    ensures store.Valid() && store.Continues()
    ensures store.own == old(store.own) || store.own == old(store.own) + [Publishing(RecoverPair(c, t, checkpoint, now))]
    ensures answer.Committed? ==> c in store.state.cells && t !in Contents(store.state.cells[c])
    ensures store.Alone() && answer.Failed? ==> store.h == old(store.h) && !MayErase(store.state, c, t, item, checkpoint)
    ensures store.Alone() && answer.Committed? ==>
              |store.h| == |old(store.h)| + 1 && store.steps[|store.steps| - 1] == Publishing(RecoverPair(c, t, checkpoint, now))
  {
    EraseRefines(store.h, c, t, item, checkpoint, now, r);
    EraseRemoves(c, t, item, checkpoint);
    answer := store.Commit(EraseGuard(c, t, item, checkpoint), Pairing(c, t, EraseOrphan(t)), Without(c, t),
                           Publishing(RecoverPair(c, t, checkpoint, now)));
  }

  /** The orphan holds exactly the rows not yet erased. */
  ghost function Left(c: CandidateId, period: nat, items: Items, checkpoint: Option<Checkpoint>): (State, set<Token>) -> bool {
    (s: State, erased: set<Token>) => Holds(s, c, period, items - erased, checkpoint)
  }

  /** One pair. Undisturbed, of an orphan that holds exactly what is left, it leaves the others. */
  method ErasePair(store: Store, c: CandidateId, period: nat, t: Token, items: Items, checkpoint: Option<Checkpoint>, now: nat,
                   ghost erased: set<Token>, ghost r: nat) returns (answer: Answer)
    requires store.Valid() && OrphanAt(store.h, r, c) && now <= store.h[r].clock && now >= Horizon(store.h[r].cells[c].period)
    requires t in items && t !in erased
    modifies store
    ensures store.Valid() && store.Continues() && OnlyErases(old(store.own), store.own, c, items)
    ensures answer.Committed? ==> c in store.state.cells && t !in Contents(store.state.cells[c])
    ensures store.Alone() && old(Left(c, period, items, checkpoint)(store.state, erased)) ==>
              answer.Committed? && Left(c, period, items, checkpoint)(store.state, erased + {t})
  {
    ghost var before := store.h;
    answer := CommitPair(store, c, t, items[t], checkpoint, now, r);
    if store.Alone() && Left(c, period, items, checkpoint)(Last(before), erased) {
      LeftAlone(before, store.h, store.steps, c, period, items, erased, checkpoint, t, now);
    }
  }

  lemma LeftAlone(before: History, h: History, steps: seq<Step>, c: CandidateId, period: nat, items: Items, erased: set<Token>,
                  checkpoint: Option<Checkpoint>, t: Token, now: nat)
    requires Run(h, steps) && before != [] && before <= h && |h| <= |before| + 1
    requires Left(c, period, items, checkpoint)(Last(before), erased) && t in items && t !in erased
    requires |h| == |before| + 1 ==> steps[|steps| - 1] == Publishing(RecoverPair(c, t, checkpoint, now))
    ensures |h| == |before| ==> MayErase(Last(h), c, t, items[t], checkpoint)
    ensures |h| == |before| + 1 ==> Left(c, period, items, checkpoint)(Last(h), erased + {t})
  {
    ErasedAlone(before, h, steps, c, period, items - erased, checkpoint, t, now);
    assert items - (erased + {t}) == (items - erased) - {t};
  }

  lemma KeysApart(h: History, steps: seq<Step>, i: nat, c: CandidateId)
    requires Run(h, steps) && i < |h| && c in h[i].cells
    ensures h[i].cells[c].rows.Keys !! h[i].cells[c].strays.Keys
  {
    RunInv(h, steps, i);
    assert CandidateSteps.Inv(h[i].cells[c]);
  }

  lemma ErasedAlone(before: History, h: History, steps: seq<Step>, c: CandidateId, period: nat, items: Items, checkpoint: Option<Checkpoint>,
                    t: Token, now: nat)
    requires Run(h, steps) && before != [] && before <= h && |h| <= |before| + 1
    requires Holds(Last(before), c, period, items, checkpoint) && t in items
    requires |h| == |before| + 1 ==> steps[|steps| - 1] == Publishing(RecoverPair(c, t, checkpoint, now))
    ensures |h| == |before| ==> MayErase(Last(h), c, t, items[t], checkpoint)
    ensures |h| == |before| + 1 ==> Holds(Last(h), c, period, items - {t}, checkpoint)
  {
    KeysApart(h, steps, |before| - 1, c);
    HoldsErases(Last(before), c, period, items, checkpoint, t);
    if |h| == |before| + 1 {
      var x := StepErases(h, steps, c, t, checkpoint, now);
      ErasedHolds(Last(before), c, period, items, checkpoint, t, x);
    }
  }

  /** The final transaction: only the summary's absence and the exact checkpoint. */
  method Conclude(store: Store, c: CandidateId, period: nat, checkpoint: Option<Checkpoint>) returns (answer: Answer)
    requires store.Valid()
    modifies store
    ensures store.Valid() && store.Continues() && OnlyErases(old(store.own), store.own, c, map[])
    ensures store.Alone() && old(Holds(store.state, c, period, map[], checkpoint)) ==> answer.Committed?
  {
    if checkpoint.None? {
      answer := store.Check(BareGuard(c, None));
    } else {
      DropRefines(store.h, c, checkpoint.value);
      answer := store.Commit(BareGuard(c, checkpoint), Changing(c, DropCheckpoint), Whatever(), Publishing(RecoverCheckpoint(c, checkpoint)));
    }
  }

  function Smaller(a: nat, b: nat): nat { if a <= b then a else b }

  method EraseNext(store: Store, c: CandidateId, period: nat, items: Items, erased: set<Token>, left: set<Token>,
                   checkpoint: Option<Checkpoint>, now: nat, ghost r: nat) returns (t: Token, answer: Answer)
    requires store.Valid() && OrphanAt(store.h, r, c) && now <= store.h[r].clock && now >= Horizon(store.h[r].cells[c].period)
    requires left != {} && left <= items.Keys && erased !! left
    requires c in store.state.cells && erased !! Contents(store.state.cells[c]).Keys
    modifies store
    ensures store.Valid() && store.Continues() && OrphanAt(store.h, r, c) && now <= store.h[r].clock && t in left
    ensures OnlyErases(old(store.own), store.own, c, items)
    ensures answer.Committed? ==> c in store.state.cells && erased + {t} !! Contents(store.state.cells[c]).Keys
    ensures store.Alone() && old(Left(c, period, items, checkpoint)(store.state, erased)) ==>
              answer.Committed? && Left(c, period, items, checkpoint)(store.state, erased + {t})
  {
    ghost var least := LeastExists(left);
    t :| t in left && IsLeast(left, t);
    ghost var before := |store.h| - 1;
    OrphanStays(store.h, store.steps, r, c);
    answer := ErasePair(store, c, period, t, items, checkpoint, now, erased, r);
    OrphanStays(store.h, store.steps, before, c);
  }

  /** Erases the first ten of the rows read. */
  method EraseFirst(store: Store, c: CandidateId, period: nat, items: Items, checkpoint: Option<Checkpoint>, now: nat, ghost r: nat)
      returns (erased: set<Token>, ok: bool)
    requires store.Valid() && OrphanAt(store.h, r, c) && now <= store.h[r].clock && now >= Horizon(store.h[r].cells[c].period)
    modifies store
    ensures store.Valid() && store.Continues() && OnlyErases(old(store.own), store.own, c, items)
    ensures ok ==> |erased| == Smaller(PAIRS, |items.Keys|) && erased <= items.Keys
    ensures ok ==> c in store.state.cells && erased !! Contents(store.state.cells[c]).Keys
    ensures store.Alone() && old(Left(c, period, items, checkpoint)(store.state, {})) ==>
              ok && Left(c, period, items, checkpoint)(store.state, erased)
  {
    OrphanStays(store.h, store.steps, r, c);
    erased, ok := {}, true;
    ghost var held := Left(c, period, items, checkpoint)(store.state, {});
    var left := items.Keys;
    while |erased| < PAIRS && left != {}
      invariant OnlyErases(old(store.own), store.own, c, items)
      invariant store.Valid() && store.Continues() && ok && OrphanAt(store.h, r, c) && c in store.state.cells
      invariant now <= store.h[r].clock && now >= Horizon(store.h[r].cells[c].period)
      invariant left <= items.Keys && |erased| <= PAIRS && |erased| + |left| == |items.Keys|
      invariant erased <= items.Keys && erased !! left && erased !! Contents(store.state.cells[c]).Keys
      invariant store.Alone() && held ==> Left(c, period, items, checkpoint)(store.state, erased)
      decreases left
    {
      var t, answer := EraseNext(store, c, period, items, erased, left, checkpoint, now, r);
      if answer.Failed? { return erased, false; }
      erased, left := erased + {t}, left - {t};
    }
  }

  // ---------------------------------------------------------------- one call

  /** An orphan that an undisturbed call works on: its period closing and past its horizon, its
      partition within the read, every row acceptable and owned. */
  ghost predicate CanRecover(s: State, c: CandidateId, period: nat, now: nat) {
    && now >= Horizon(period) && OrphanIn(s, c, period)
    && Fits(|Contents(s.cells[c]).Keys|, s.cells[c].checkpoint.Some?)
    && AllAcceptable(Contents(s.cells[c]), period, now) && AllOwned(s, c, period, Contents(s.cells[c]))
  }

  ghost function Recoverable(c: CandidateId, period: nat, now: nat): State -> bool { (s: State) => CanRecover(s, c, period, now) }

  lemma RecoverableIs(s: State, c: CandidateId, period: nat, now: nat)
    ensures Recoverable(c, period, now)(s) <==> CanRecover(s, c, period, now)
  {
  }

  lemma RecoverableIsOrphan(s: State, c: CandidateId, period: nat, now: nat)
    ensures Recoverable(c, period, now)(s) ==> now >= Horizon(period) && OrphanIn(s, c, period)
  {
  }

  lemma LeftRecoverable(s: State, n: State, c: CandidateId, period: nat, now: nat, erased: set<Token>)
    requires CanRecover(s, c, period, now)
    requires Holds(n, c, period, Contents(s.cells[c]) - erased, s.cells[c].checkpoint)
    ensures CanRecover(n, c, period, now)
  {
    SubsetSize(Contents(n.cells[c]).Keys, Contents(s.cells[c]).Keys);
  }

  lemma LessRead(h: History, steps: seq<Step>, u: nat, c: CandidateId, items: Items)
    requires Run(h, steps) && OrphanAt(h, u, c) && ReadTo(ContentsAt(h, u, c), items, None)
    ensures Orphan(Last(h), c) && ReadTo(Contents(Last(h).cells[c]), items, None)
  {
    OrphanStays(h, steps, u, c);
    ReadLess(ContentsAt(h, u, c), Contents(Last(h).cells[c]), items);
  }

  lemma Remaining(present: Items, items: Items, erased: set<Token>)
    requires ReadTo(present, items, None) && erased <= items.Keys && erased !! present.Keys
    ensures |present.Keys| + |erased| <= |items.Keys| && (items != map[] ==> |items.Keys| > 0)
  {
    assert present.Keys <= items.Keys;
    SubsetSize(present.Keys + erased, items.Keys);
    if items != map[] { assert items.Keys != {}; }
  }

  lemma AllRemaining(items: Items, erased: set<Token>)
    requires erased <= items.Keys
    ensures |(items - erased).Keys| == |items.Keys| - |erased|
  {
    assert (items - erased).Keys == items.Keys - erased;
  }

  method EraseSome(store: Store, c: CandidateId, period: nat, items: Items, checkpoint: Option<Checkpoint>, now: nat, ghost r: nat)
      returns (recovery: Recovery)
    requires store.Valid() && OrphanAt(store.h, r, c) && now <= store.h[r].clock && now >= Horizon(store.h[r].cells[c].period)
    requires items != map[] && c in store.state.cells && ReadTo(Contents(store.state.cells[c]), items, None)
    modifies store
    ensures store.Valid() && store.Continues() && !recovery.EmptyObserved? && OnlyErases(old(store.own), store.own, c, items)
    ensures recovery.Erasing? ==> 0 < recovery.found == |items.Keys| && |recovery.erased| == Smaller(PAIRS, recovery.found)
    ensures recovery.Erasing? ==> c in store.state.cells && |Contents(store.state.cells[c]).Keys| + |recovery.erased| <= recovery.found
    ensures store.Alone() && old(Holds(store.state, c, period, items, checkpoint)) ==>
              recovery.Erasing? && recovery.erased <= items.Keys && Holds(store.state, c, period, items - recovery.erased, checkpoint)
  {
    ghost var u := |store.h| - 1;
    OrphanStays(store.h, store.steps, r, c);
    assert ReadTo(ContentsAt(store.h, u, c), items, None);
    assert items - {} == items;
    var erased, done := EraseFirst(store, c, period, items, checkpoint, now, r);
    if !done { return Refused; }
    LessRead(store.h, store.steps, u, c, items);
    Remaining(Contents(store.state.cells[c]), items, erased);
    recovery := Erasing(|items.Keys|, erased);
  }

  method ConcludeEmpty(store: Store, c: CandidateId, period: nat, checkpoint: Option<Checkpoint>, ghost r: nat) returns (recovery: Recovery)
    requires store.Valid() && OrphanAt(store.h, r, c) && c in store.state.cells && ReadTo(Contents(store.state.cells[c]), map[], None)
    modifies store
    ensures store.Valid() && store.Continues() && !recovery.Erasing? && OnlyErases(old(store.own), store.own, c, map[])
    ensures c in store.state.cells && Contents(store.state.cells[c]) == map[] && store.state.cells[c].summary.None?
    ensures store.Alone() && old(Holds(store.state, c, period, map[], checkpoint)) ==> recovery.EmptyObserved?
  {
    ghost var u := |store.h| - 1;
    OrphanStays(store.h, store.steps, r, c);
    var answer := Conclude(store, c, period, checkpoint);
    OrphanStays(store.h, store.steps, u, c);
    recovery := if answer.Committed? then EmptyObserved else Refused;
  }

  /** Undisturbed, a call that finds nothing wrong sees the orphan exactly as it is. */
  ghost predicate Validated(s: State, c: CandidateId, period: nat, now: nat, items: Items, checkpoint: Option<Checkpoint>) {
    && Holds(s, c, period, items, checkpoint)
    && Fits(|items.Keys|, checkpoint.Some?) && AllAcceptable(items, period, now)
  }

  lemma ReadLess(before: Items, present: Items, items: Items)
    requires ReadTo(before, items, None) && Shrinks(before, present)
    ensures ReadTo(present, items, None)
  {
  }

  /** The outcome of an undisturbed validation. */
  ghost function Outcome(c: CandidateId, period: nat, now: nat, items: Items, checkpoint: Option<Checkpoint>, ok: bool): State -> bool {
    (s: State) => if ok then Validated(s, c, period, now, items, checkpoint) else !CanRecover(s, c, period, now)
  }

  lemma ReadOutcome(s: State, c: CandidateId, period: nat, now: nat, items: Items, checkpoint: Option<Checkpoint>, first: Items, read: bool)
    requires OrphanIn(s, c, period) && s.cells[c].checkpoint == checkpoint
    requires ReadAll(Contents(s.cells[c]), items, first, true, checkpoint.Some?, read)
    ensures !read || !AllAcceptable(items, period, now) ==> Outcome(c, period, now, items, checkpoint, false)(s)
    ensures read && AllAcceptable(items, period, now) ==>
              Outcome(c, period, now, items, checkpoint, AllOwned(s, c, period, items))(s)
  {
  }

  /** Reads the checkpoint and then the whole partition. */
  method ReadOrphan(store: Store, c: CandidateId, period: nat, ghost r: nat)
      returns (items: Items, checkpoint: Option<Checkpoint>, ok: bool)
    requires store.Valid() && OrphanAt(store.h, r, c)
    modifies store
    ensures store.Valid() && store.Continues() && store.own == old(store.own) && OrphanAt(store.h, r, c) && c in store.state.cells
    ensures store.Alone() ==> store.state == old(store.state) && store.state.cells[c].checkpoint == checkpoint
    ensures ReadAll(Contents(store.state.cells[c]), items, ContentsAt(store.h, r, c), store.Alone(), checkpoint.Some?, ok)
  {
    store.Interfere();
    OrphanStays(store.h, store.steps, r, c);
    checkpoint := Saved(store.state, c);
    items, ok := ReadPartition(store, c, checkpoint.Some?, r);
  }

  /** Reads everything and validates every row of it and its locator. Nothing is written. `at` is
      the moment at which the partition had been read. */
  method Validate(store: Store, c: CandidateId, period: nat, now: nat, ghost r: nat)
      returns (items: Items, checkpoint: Option<Checkpoint>, ok: bool, ghost at: nat)
    requires store.Valid() && OrphanAt(store.h, r, c) && OrphanIn(store.state, c, period)
    modifies store
    ensures store.Valid() && store.Continues() && store.own == old(store.own)
    ensures r <= at && OrphanAt(store.h, at, c) && |old(store.h)| <= at + 1 && Orphan(store.state, c)
    ensures Shrinks(ContentsAt(store.h, r, c), items) && Shrinks(ContentsAt(store.h, at, c), Contents(store.state.cells[c]))
    ensures ok ==> ReadTo(ContentsAt(store.h, at, c), items, None) && ReadTo(Contents(store.state.cells[c]), items, None)
    ensures ok ==> AllAcceptable(items, period, now)
    ensures store.Alone() ==> store.state == old(store.state) && Outcome(c, period, now, items, checkpoint, ok)(store.state)
  {
    items, checkpoint, ok := ReadOrphan(store, c, period, r);
    at := |store.h| - 1;
    OrphanStays(store.h, store.steps, r, c);
    if store.Alone() { ReadOutcome(store.state, c, period, now, items, checkpoint, ContentsAt(store.h, r, c), ok); }
    if ok && AllAcceptable(items, period, now) {
      ok := VerifyOwned(store, c, period, items);
      OrphanStays(store.h, store.steps, at, c);
      ReadLess(ContentsAt(store.h, at, c), Contents(store.state.cells[c]), items);
    } else {
      ok := false;
    }
  }

  /** The rows read were all of those present at that moment, and every one of them acceptable. */
  ghost function Whole(c: CandidateId, period: nat, now: nat, items: Items): (History, nat) -> bool {
    (h: History, at: nat) => OrphanAt(h, at, c) && ReadTo(ContentsAt(h, at, c), items, None) && AllAcceptable(items, period, now)
  }

  /** What an undisturbed call makes of a recoverable orphan of `n` rows. */
  ghost function Progress(c: CandidateId, period: nat, now: nat, n: nat): (State, Recovery) -> bool {
    (s: State, recovery: Recovery) =>
      if n == 0 then recovery.EmptyObserved?
      else
        && recovery.Erasing? && recovery.found == n
        && CanRecover(s, c, period, now) && |Contents(s.cells[c]).Keys| + Smaller(PAIRS, n) == n
  }

  /** Of an orphan that held exactly these rows: ten of them are gone, or there was none. */
  ghost predicate Acted(s: State, c: CandidateId, period: nat, items: Items, checkpoint: Option<Checkpoint>, recovery: Recovery) {
    match recovery
    case Refused => false
    case EmptyObserved => items == map[]
    case Erasing(found, erased) =>
      && items != map[] && found == |items.Keys| && |erased| == Smaller(PAIRS, found) && erased <= items.Keys
      && Holds(s, c, period, items - erased, checkpoint)
  }

  lemma ActProgresses(s: State, n: State, c: CandidateId, period: nat, now: nat, items: Items, checkpoint: Option<Checkpoint>, recovery: Recovery)
    requires Validated(s, c, period, now, items, checkpoint) && now >= Horizon(period)
    requires Acted(n, c, period, items, checkpoint, recovery)
    ensures !recovery.Refused? && Progress(c, period, now, |items.Keys|)(n, recovery)
  {
    if recovery.Erasing? {
      LeftRecoverable(s, n, c, period, now, recovery.erased);
      AllRemaining(items, recovery.erased);
      SubsetSize({}, items.Keys);
      assert |items.Keys| != 0;
    }
  }

  /** Erases after validation. */
  method Act(store: Store, c: CandidateId, period: nat, items: Items, checkpoint: Option<Checkpoint>, now: nat, ghost r: nat)
      returns (recovery: Recovery)
    requires store.Valid() && OrphanAt(store.h, r, c) && now <= store.h[r].clock && now >= Horizon(store.h[r].cells[c].period)
    requires c in store.state.cells && ReadTo(Contents(store.state.cells[c]), items, None)
    requires now >= Horizon(period)
    modifies store
    ensures store.Valid() && store.Continues() && OnlyErases(old(store.own), store.own, c, items)
    ensures recovery.EmptyObserved? ==> items == map[] && c in store.state.cells && Contents(store.state.cells[c]) == map[]
    ensures recovery.Erasing? ==> 0 < recovery.found == |items.Keys| && |recovery.erased| == Smaller(PAIRS, recovery.found)
    ensures recovery.Erasing? ==> c in store.state.cells && |Contents(store.state.cells[c]).Keys| + |recovery.erased| <= recovery.found
    ensures store.Alone() && old(Outcome(c, period, now, items, checkpoint, true)(store.state)) ==>
              !recovery.Refused? && Progress(c, period, now, |items.Keys|)(store.state, recovery)
  {
    ghost var before := store.state;
    if items == map[] {
      recovery := ConcludeEmpty(store, c, period, checkpoint, r);
    } else {
      recovery := EraseSome(store, c, period, items, checkpoint, now, r);
    }
    if store.Alone() && Outcome(c, period, now, items, checkpoint, true)(before) {
      ActProgresses(before, store.state, c, period, now, items, checkpoint, recovery);
    }
  }

  /** The orphan holds a row that no call accepts. */
  ghost function Spoilt(c: CandidateId, period: nat, now: nat): State -> bool {
    (s: State) => c in s.cells && s.cells[c].summary.None? && !AllAcceptable(Contents(s.cells[c]), period, now)
  }

  lemma SpoiltRead(h: History, at: nat, s: State, c: CandidateId, items: Items, period: nat, now: nat)
    requires OrphanAt(h, at, c) && c in s.cells && Shrinks(ContentsAt(h, at, c), Contents(s.cells[c]))
    ensures Whole(c, period, now, items)(h, at) ==> !Spoilt(c, period, now)(s)
  {
  }

  lemma WholeWhen(h: History, at: nat, c: CandidateId, items: Items, period: nat, now: nat)
    requires OrphanAt(h, at, c)
    ensures Whole(c, period, now, items)(h, at) <==> ReadTo(ContentsAt(h, at, c), items, None) && AllAcceptable(items, period, now)
  {
  }

  lemma OutcomeDecides(s: State, c: CandidateId, period: nat, now: nat, items: Items, checkpoint: Option<Checkpoint>, ok: bool)
    requires Outcome(c, period, now, items, checkpoint, ok)(s) && now >= Horizon(period)
    ensures ok <==> Recoverable(c, period, now)(s)
    ensures ok ==> c in s.cells && items == Contents(s.cells[c])
  {
  }

  /** The call once it has seen the orphan at `r`. */
  method Work(store: Store, c: CandidateId, period: nat, now: nat, ghost r: nat) returns (recovery: Recovery, ghost read: Items, ghost at: nat)
    requires store.Valid() && OrphanAt(store.h, r, c) && store.h[r].cells[c].period == period && OrphanIn(store.state, c, period)
    requires now <= store.h[r].clock && now >= Horizon(period) && r == |store.h| - 1
    modifies store
    ensures store.Valid() && store.Continues() && OnlyErases(old(store.own), store.own, c, read)
    ensures r <= at && OrphanAt(store.h, at, c) && Orphan(store.state, c)
    ensures Shrinks(ContentsAt(store.h, r, c), read) && Shrinks(ContentsAt(store.h, at, c), Contents(store.state.cells[c]))
    ensures !recovery.Refused? || store.own != old(store.own) ==>
              Whole(c, period, now, read)(store.h, at) && !Spoilt(c, period, now)(store.state) && AllAcceptable(read, period, now)
    ensures recovery.EmptyObserved? ==> Contents(store.state.cells[c]) == map[]
    ensures recovery.Erasing? ==> 0 < recovery.found == |read.Keys| && |recovery.erased| == Smaller(PAIRS, recovery.found)
    ensures recovery.Erasing? ==> |Contents(store.state.cells[c]).Keys| + |recovery.erased| <= recovery.found
    ensures store.Alone() ==> (recovery.Refused? <==> !old(Recoverable(c, period, now)(store.state)))
    ensures store.Alone() && !recovery.Refused? ==>
              Progress(c, period, now, |old(Contents(store.state.cells[c])).Keys|)(store.state, recovery)
  {
    var items, checkpoint, ok;
    items, checkpoint, ok, at := Validate(store, c, period, now, r);
    read := items;
    recovery := Refused;
    if store.Alone() { OutcomeDecides(store.state, c, period, now, items, checkpoint, ok); }
    if ok { recovery := Act(store, c, period, items, checkpoint, now, r); }
    Judged(store.h, store.steps, at, c, read, period, now);
  }

  /** What reading everything at `at` says of the partition ever after. */
  lemma Judged(h: History, steps: seq<Step>, at: nat, c: CandidateId, read: Items, period: nat, now: nat)
    requires Run(h, steps) && OrphanAt(h, at, c)
    ensures Orphan(Last(h), c) && Shrinks(ContentsAt(h, at, c), Contents(Last(h).cells[c]))
    ensures ReadTo(ContentsAt(h, at, c), read, None) && AllAcceptable(read, period, now) ==>
              Whole(c, period, now, read)(h, at) && !Spoilt(c, period, now)(Last(h))
  {
    OrphanStays(h, steps, at, c);
    SpoiltRead(h, at, Last(h), c, read, period, now);
    WholeWhen(h, at, c, read, period, now);
  }

  /** Reads the period's registry, which must be closing, and then the summary, which must be absent. */
  method FindOrphan(store: Store, c: CandidateId, period: nat) returns (found: bool)
    requires store.Valid()
    modifies store
    ensures store.Valid() && store.Continues() && store.own == old(store.own)
    ensures found ==> OrphanIn(store.state, c, period)
    ensures store.Alone() ==> store.state == old(store.state) && (found <==> OrphanIn(store.state, c, period))
  {
    store.Interfere();
    if period !in store.state.closing { return false; }
    ghost var closed := |store.h| - 1;
    store.Interfere();
    RunEvolves(store.h, store.steps, closed, |store.h| - 1);
    found := OrphanIn(store.state, c, period);
  }

  lemma FoundAtMost(h: History, steps: seq<Step>, i: nat, r: nat, c: CandidateId, read: Items)
    requires Run(h, steps) && i <= r && OrphanAt(h, i, c) && OrphanAt(h, r, c) && Shrinks(ContentsAt(h, r, c), read)
    ensures |read.Keys| <= |ContentsAt(h, i, c).Keys|
  {
    OrphanLater(h, steps, i, r, c);
    SubsetSize(read.Keys, ContentsAt(h, i, c).Keys);
  }

  /** One call. `read` is what it read of the partition and `at` when the reading ended. It erases
      nothing unless it has read all rows of that moment and found every one acceptable; a row that
      is not, whether it was read or is still there afterwards, makes it refuse with no step of its
      own. Undisturbed it refuses exactly the orphans that are not recoverable. */
  method Recover(store: Store, c: CandidateId, period: nat, now: nat) returns (recovery: Recovery, ghost read: Items, ghost at: nat)
    requires store.Valid() && now <= store.state.clock
    modifies store
    ensures store.Valid() && store.Continues() && OnlyErases(old(store.own), store.own, c, read)
    ensures store.own != old(store.own) ==> |old(store.h)| <= at + 1 && Whole(c, period, now, read)(store.h, at)
    ensures !AllAcceptable(read, period, now) ==> recovery.Refused? && store.own == old(store.own)
    ensures Spoilt(c, period, now)(store.state) ==> recovery.Refused? && store.own == old(store.own)
    ensures !recovery.Refused? ==> Orphan(store.state, c) && Whole(c, period, now, read)(store.h, at)
    ensures recovery.EmptyObserved? ==> Contents(store.state.cells[c]) == map[]
    ensures recovery.Erasing? ==> 0 < recovery.found && |recovery.erased| == Smaller(PAIRS, recovery.found)
    ensures recovery.Erasing? ==> |Contents(store.state.cells[c]).Keys| + |recovery.erased| <= recovery.found
    ensures recovery.Erasing? && old(Orphan(store.state, c)) ==> recovery.found <= |old(Contents(store.state.cells[c])).Keys|
    ensures store.Alone() ==> (recovery.Refused? <==> !old(Recoverable(c, period, now)(store.state)))
    ensures store.Alone() && !recovery.Refused? ==>
              Progress(c, period, now, |old(Contents(store.state.cells[c])).Keys|)(store.state, recovery)
  {
    ghost var start := |store.h| - 1;
    RecoverableIsOrphan(store.state, c, period, now);
    recovery, read, at := Refused, map[], start;
    if now < Horizon(period) { return; }
    var found := FindOrphan(store, c, period);
    if !found { return; }
    ghost var r := |store.h| - 1;
    ClockRuns(store.h, store.steps, start);
    recovery, read, at := Work(store, c, period, now, r);
    if OrphanAt(store.h, start, c) { FoundAtMost(store.h, store.steps, start, r, c, read); }
  }

  // ---------------------------------------------------------------- repeated calls

  function CallsFor(n: nat): nat { (n + PAIRS - 1) / PAIRS }

  /** The rows left of `n` when each of `calls` calls has erased ten. */
  function Rest(n: nat, calls: nat): nat { if n >= PAIRS * calls then n - PAIRS * calls else 0 }

  lemma RestStep(n: nat, calls: nat, found: nat)
    requires 0 < found <= Rest(n, calls)
    ensures calls < CallsFor(n) && found - Smaller(PAIRS, found) <= Rest(n, calls + 1)
    ensures found == Rest(n, calls) ==> found - Smaller(PAIRS, found) == Rest(n, calls + 1)
  {
  }

  /** After `calls` calls that all erased something, the last one in state `s`. */
  ghost function Drained(c: CandidateId, period: nat, n: nat): (State, nat) -> bool {
    (s: State, calls: nat) => CanRecover(s, c, period, s.clock) && |Contents(s.cells[c]).Keys| == Rest(n, calls)
  }

  lemma DrainedFirst(s: State, c: CandidateId, period: nat)
    requires c in s.cells && Recoverable(c, period, s.clock)(s)
    ensures Drained(c, period, |Contents(s.cells[c]).Keys|)(s, 0)
  {
  }

  lemma DrainedNext(c: CandidateId, period: nat, n: nat, s: State, next: State, calls: nat, recovery: Recovery)
    requires Drained(c, period, n)(s, calls) && s.clock <= next.clock
    requires Progress(c, period, s.clock, |Contents(s.cells[c]).Keys|)(next, recovery)
    ensures if Rest(n, calls) == 0 then recovery.EmptyObserved? else recovery.Erasing? && Drained(c, period, n)(next, calls + 1)
  {
    if Rest(n, calls) > 0 { RestStep(n, calls, recovery.found); }
  }

  /** No more rows are left of `n` than `calls` calls may leave. */
  ghost function AtMostRest(c: CandidateId, n: nat): (State, nat) -> bool {
    (s: State, calls: nat) => Orphan(s, c) && |Contents(s.cells[c]).Keys| <= Rest(n, calls)
  }

  lemma AtMostRestIs(s: State, c: CandidateId, n: nat, calls: nat)
    ensures AtMostRest(c, n)(s, calls) <==> Orphan(s, c) && |Contents(s.cells[c]).Keys| <= Rest(n, calls)
  {
  }

  lemma NothingRests(n: nat, calls: nat)
    requires Rest(n, calls) == 0 && calls <= CallsFor(n)
    ensures calls == CallsFor(n)
  {
  }

  lemma CallCounts(s: State, next: State, c: CandidateId, n: nat, calls: nat, recovery: Recovery)
    requires AtMostRest(c, n)(s, calls) && Orphan(next, c) && recovery.Erasing?
    requires 0 < recovery.found <= |Contents(s.cells[c]).Keys| && |recovery.erased| == Smaller(PAIRS, recovery.found)
    requires |Contents(next.cells[c]).Keys| + |recovery.erased| <= recovery.found
    ensures calls < CallsFor(n) && AtMostRest(c, n)(next, calls + 1)
  {
    RestStep(n, calls, recovery.found);
  }

  lemma CallAlone(s: State, next: State, c: CandidateId, period: nat, n: nat, calls: nat, recovery: Recovery)
    requires Drained(c, period, n)(s, calls) && s.clock <= next.clock && calls <= CallsFor(n)
    requires Recoverable(c, period, s.clock)(s) ==>
               c in s.cells && !recovery.Refused? && Progress(c, period, s.clock, |Contents(s.cells[c]).Keys|)(next, recovery)
    ensures if recovery.Erasing? then Drained(c, period, n)(next, calls + 1) else recovery.EmptyObserved? && calls == CallsFor(n)
  {
    RecoverableIs(s, c, period, s.clock);
    DrainedNext(c, period, n, s, next, calls, recovery);
    if Rest(n, calls) == 0 { NothingRests(n, calls); }
  }

  /** One call of the sequence. */
  method CallAgain(store: Store, c: CandidateId, period: nat, ghost n: nat, ghost calls: nat) returns (recovery: Recovery)
    requires store.Valid() && AtMostRest(c, n)(store.state, calls) && calls <= CallsFor(n)
    modifies store
    ensures store.Valid() && store.Continues() && Orphan(store.state, c)
    ensures recovery.EmptyObserved? ==> Contents(store.state.cells[c]) == map[]
    ensures recovery.Erasing? ==> calls < CallsFor(n) && AtMostRest(c, n)(store.state, calls + 1)
    ensures store.Alone() && old(Drained(c, period, n)(store.state, calls)) ==>
              if recovery.Erasing? then Drained(c, period, n)(store.state, calls + 1) else recovery.EmptyObserved? && calls == CallsFor(n)
  {
    ghost var before, start := store.state, |store.h| - 1;
    AtMostRestIs(before, c, n, calls);
    ghost var read, at;
    recovery, read, at := Recover(store, c, period, store.state.clock);
    OrphanStays(store.h, store.steps, start, c);
    ClockRuns(store.h, store.steps, start);
    if recovery.Erasing? { CallCounts(before, store.state, c, n, calls, recovery); }
    if store.Alone() && Drained(c, period, n)(before, calls) { CallAlone(before, store.state, c, period, n, calls, recovery); }
  }

  method CallUntilRefused(store: Store, c: CandidateId, period: nat, ghost n: nat) returns (calls: nat, last: Recovery)
    requires store.Valid() && AtMostRest(c, n)(store.state, 0)
    modifies store
    ensures store.Valid() && store.Continues() && !last.Erasing? && Orphan(store.state, c)
    ensures 1 <= calls <= CallsFor(n) + 1
    ensures last.EmptyObserved? ==> Contents(store.state.cells[c]) == map[]
    ensures store.Alone() && old(Drained(c, period, n)(store.state, 0)) ==> last.EmptyObserved? && calls == CallsFor(n) + 1
  {
    ghost var held := Drained(c, period, n)(store.state, 0);
    calls, last := 0, Refused;
    while true
      invariant store.Valid() && store.Continues() && AtMostRest(c, n)(store.state, calls) && calls <= CallsFor(n)
      invariant store.Alone() && held ==> Drained(c, period, n)(store.state, calls)
      decreases CallsFor(n) - calls
    {
      last := CallAgain(store, c, period, n, calls);
      calls := calls + 1;
      if !last.Erasing? { return; }
    }
  }

  /** Calls until one does not erase. Whatever others do meanwhile, an orphan of `n` rows takes at
      most ceil(n / 10) calls and one more, which finds it empty or refuses; a recoverable one left
      alone takes exactly that many and is found empty. */
  method Drain(store: Store, c: CandidateId, period: nat) returns (calls: nat, last: Recovery)
    requires store.Valid() && Orphan(store.state, c)
    modifies store
    ensures store.Valid() && store.Continues() && !last.Erasing? && Orphan(store.state, c)
    ensures 1 <= calls <= CallsFor(|old(Contents(store.state.cells[c])).Keys|) + 1
    ensures last.EmptyObserved? ==> Contents(store.state.cells[c]) == map[]
    ensures store.Alone() && old(Recoverable(c, period, store.state.clock)(store.state)) ==>
              last.EmptyObserved? && calls == CallsFor(|old(Contents(store.state.cells[c])).Keys|) + 1
  {
    if Recoverable(c, period, store.state.clock)(store.state) { DrainedFirst(store.state, c, period); }
    AtMostRestIs(store.state, c, |Contents(store.state.cells[c]).Keys|, 0);
    calls, last := CallUntilRefused(store, c, period, |Contents(store.state.cells[c]).Keys|);
  }

  /** Once empty without a summary, a candidate's partition holds nothing ever again. */
  lemma EmptyForGood(h: History, steps: seq<Step>, i: nat, j: nat, c: CandidateId)
    requires Run(h, steps) && i <= j < |h| && OrphanAt(h, i, c) && ContentsAt(h, i, c) == map[]
    ensures OrphanAt(h, j, c) && ContentsAt(h, j, c) == map[]
  {
    OrphanLater(h, steps, i, j, c);
  }
}
