/** The shared key/value table: candidates, contributor partitions, events, and the deletion ledger.
    One transaction changes at most one record of each kind, all at once. */
module Table {
  import opened Basics
  import opened Candidate
  import opened CandidateSteps

  type CandidateId = nat
  type EventId = nat
  type Operation = nat
  /** A contributor's token is the injective image of the account and period; the account itself
      stands for it. */
  type Account = Token

  const PERIOD_SECONDS := 14 * 86400
  const RECOVERY_SECONDS := 7 * 86400

  /** No transient record outlives this epoch. */
  function Horizon(period: nat): nat { (period + 1) * PERIOD_SECONDS + RECOVERY_SECONDS }

  datatype Partition = Partition(period: nat, token: Token)

  datatype LocatorKey = CandidateKey(candidate: CandidateId) | EventKey(event: EventId)

  predicate KeyLess(a: LocatorKey, b: LocatorKey) {
    match (a, b)
    case (CandidateKey(_), EventKey(_)) => true
    case (EventKey(_), CandidateKey(_)) => false
    case (CandidateKey(x), CandidateKey(y)) => x < y
    case (EventKey(x), EventKey(y)) => x < y
  }

  datatype Locator = Locator(key: LocatorKey, expiresAt: nat)

  /** The durable traversal state inside a tombstone. */
  datatype Cleanup =
    | Seek(operation: Operation, cursor: Option<LocatorKey>)
    | Delete(operation: Operation, cursor: Option<LocatorKey>, locator: Locator, nextCursor: Option<LocatorKey>)
    | Recompute(operation: Operation, cursor: Option<LocatorKey>, locator: Locator, nextCursor: Option<LocatorKey>)

  /** The retained-period cursor that shares the tombstone of a request's newest period. */
  datatype PeriodCursor = PeriodCursor(operation: Operation, minimum: nat, maximum: nat, next: nat)

  datatype Tombstone = Tombstone(createdAt: nat, deadline: nat,
                                 cleanupRevision: nat, cleanup: Option<Cleanup>,
                                 periodRevision: nat, periods: Option<PeriodCursor>)

  datatype Part = Part(tombstone: Option<Tombstone>, locators: map<LocatorKey, nat>)

  datatype Outcome = Counted | ContributorCapped
  /** An event keeps its owner; its feature and clustering records may come and go. */
  datatype Event = Event(owner: Partition, expiresAt: nat, feature: bool, clustered: Option<Outcome>)

  datatype CommandKind = Withdrawal | AccountDeletion
  datatype Command = Command(kind: CommandKind, occurredAt: nat, completedAt: Option<nat>)
  datatype Control = Control(revision: nat, pendingJobs: nat, sealed: bool)
  datatype Receipt = Receipt(operation: Operation, occurredAt: nat)
  /** One account's durable deletion commands, their pending jobs and their evidence. */
  datatype Ledger = Ledger(commands: map<Operation, Command>, jobs: set<Operation>, control: Option<Control>,
                           receipt: Option<Receipt>, audits: map<Operation, nat>)

  const EMPTY_LEDGER := Ledger(map[], {}, None, None, map[])

  datatype State = State(
    clock: nat,
    closing: set<nat>,
    cells: map<CandidateId, Cell>,
    parts: map<Partition, Part>,
    events: map<EventId, Event>,
    // A history of which contribution each event was counted for; no step reads it.
    counted: map<EventId, (CandidateId, Token)>,
    ledgers: map<Account, Ledger>)

  function PartOf(s: State, p: Partition): Part {
    if p in s.parts then s.parts[p] else Part(None, map[])
  }

  function LedgerOf(s: State, a: Account): Ledger {
    if a in s.ledgers then s.ledgers[a] else EMPTY_LEDGER
  }

  // ---------------------------------------------------------------- transactions

  datatype CellWrite = NoCell | Create(candidate: CandidateId, cell: Cell) | Modify(candidate: CandidateId, change: Change)
  datatype LocatorWrite =
    | NoLocator
    | AddLocator(partition: Partition, key: LocatorKey, expiresAt: nat)
    | DropLocator(partition: Partition, key: LocatorKey)

  datatype Transaction = Transaction(
    cell: CellWrite,
    locator: LocatorWrite,
    fence: Option<(Partition, Tombstone)>,
    event: Option<(EventId, Event)>,
    counted: Option<(EventId, (CandidateId, Token))>,
    ledger: Option<(Account, Ledger)>,
    closes: Option<nat>,
    clock: Option<nat>)

  const NO_WRITES := Transaction(NoCell, NoLocator, None, None, None, None, None, None)

  function ApplyCell(cells: map<CandidateId, Cell>, w: CellWrite): map<CandidateId, Cell>
    requires w.Modify? ==> w.candidate in cells && Admissible(cells[w.candidate], w.change)
  {
    match w
    case NoCell => cells
    case Create(c, cell) => cells[c := cell]
    case Modify(c, ch) => cells[c := CandidateSteps.Next(cells[c], ch)]
  }

  function ApplyLocator(s: State, w: LocatorWrite): map<Partition, Part> {
    match w
    case NoLocator => s.parts
    case AddLocator(p, key, expiry) =>
      s.parts[p := PartOf(s, p).(locators := PartOf(s, p).locators[key := expiry])]
    case DropLocator(p, key) =>
      s.parts[p := PartOf(s, p).(locators := PartOf(s, p).locators - {key})]
  }

  function ApplyFence(s: State, fence: Option<(Partition, Tombstone)>): map<Partition, Part> {
    match fence
    case None => s.parts
    case Some((p, tomb)) => s.parts[p := PartOf(s, p).(tombstone := Some(tomb))]
  }

  ghost predicate Applicable(s: State, w: CellWrite) {
    w.Modify? ==> w.candidate in s.cells && Admissible(s.cells[w.candidate], w.change)
  }

  function Apply(s: State, x: Transaction): State
    requires Applicable(s, x.cell)
  {
    var s1 := s.(parts := ApplyLocator(s, x.locator));
    State(
      if x.clock.Some? then x.clock.value else s.clock,
      if x.closes.Some? then s.closing + {x.closes.value} else s.closing,
      ApplyCell(s.cells, x.cell),
      ApplyFence(s1, x.fence),
      if x.event.Some? then s.events[x.event.value.0 := x.event.value.1] else s.events,
      if x.counted.Some? then s.counted[x.counted.value.0 := x.counted.value.1] else s.counted,
      if x.ledger.Some? then s.ledgers[x.ledger.value.0 := x.ledger.value.1] else s.ledgers)
  }

  // ---------------------------------------------------------------- invariant

  ghost predicate CellsSound(s: State) {
    forall c :: c in s.cells ==> CandidateSteps.Inv(s.cells[c])
  }

  /** Every contribution has its owned locator, with the same deadline. */
  ghost predicate Located(s: State) {
    forall c, t :: c in s.cells && t in s.cells[c].rows ==>
      var l := PartOf(s, Partition(s.cells[c].period, t)).locators;
      CandidateKey(c) in l && l[CandidateKey(c)] == s.cells[c].rows[t].expiresAt
  }

  ghost predicate KnownKey(s: State, p: Partition, key: LocatorKey) {
    match key
    case CandidateKey(c) => c in s.cells && s.cells[c].period == p.period
    case EventKey(e) => e in s.events && s.events[e].owner == p
  }

  ghost predicate KnownCleanup(s: State, p: Partition, cleanup: Cleanup) {
    !cleanup.Seek? ==> KnownKey(s, p, cleanup.locator.key)
  }

  /** Locators and traversal states only name records that were really created. */
  ghost predicate Known(s: State) {
    && (forall p, key :: p in s.parts && key in s.parts[p].locators ==> KnownKey(s, p, key))
    && (forall p :: p in s.parts && s.parts[p].tombstone.Some? && s.parts[p].tombstone.value.cleanup.Some? ==>
         KnownCleanup(s, p, s.parts[p].tombstone.value.cleanup.value))
  }

  /** Event records exist only beside their locator, and a counted event still owning its locator
      is marked as counted. */
  ghost predicate EventsOwned(s: State) {
    && (forall e :: e in s.events && (s.events[e].feature || s.events[e].clustered.Some?) ==>
         EventKey(e) in PartOf(s, s.events[e].owner).locators)
    && (forall e :: e in s.counted ==> e in s.events)
    && (forall e :: e in s.counted && EventKey(e) in PartOf(s, s.events[e].owner).locators ==>
         s.events[e].clustered == Some(Counted))
  }

  ghost function CountedFor(counted: map<EventId, (CandidateId, Token)>, c: CandidateId, t: Token): set<EventId> {
    set e | e in counted && counted[e] == (c, t)
  }

  /** Each contribution's submission count is the number of events counted for it. */
  ghost predicate Conserved(s: State) {
    && (forall c, t :: c in s.cells && t in s.cells[c].rows ==>
         s.cells[c].rows[t].submissions == |CountedFor(s.counted, c, t)|)
    && (forall e :: e in s.counted ==> s.counted[e].0 in s.cells)
    && (forall e :: e in s.counted ==> RowOrFence(s, s.counted[e].0, s.counted[e].1))
  }

  /** A contribution missing from an open candidate was erased under its owner's tombstone. */
  ghost predicate RowOrFence(s: State, c: CandidateId, t: Token) {
    c in s.cells && s.cells[c].summary.Some? && s.cells[c].summary.value.phase.Open? && t !in s.cells[c].rows ==>
      PartOf(s, Partition(s.cells[c].period, t)).tombstone.Some?
  }

  /** A candidate leaves its open phase only after its period closed; nothing outlives the horizon; no
      recomputation has a cutoff in the future. */
  ghost predicate Timely(s: State) {
    && (forall c :: c in s.cells && s.cells[c].summary.Some? && !s.cells[c].summary.value.phase.Open? ==>
         s.cells[c].period in s.closing)
    && (forall c, t :: c in s.cells && t in s.cells[c].rows ==> s.cells[c].rows[t].expiresAt <= Horizon(s.cells[c].period))
    && (forall c :: c in s.cells && s.cells[c].checkpoint.Some? ==> s.cells[c].checkpoint.value.cutoff <= s.clock)
  }

  ghost predicate Inv(s: State) {
    CellsSound(s) && Located(s) && Known(s) && EventsOwned(s) && Conserved(s) && Timely(s)
  }

  // ---------------------------------------------------------------- evolution

  ghost predicate TombstoneEvolves(a: Tombstone, b: Tombstone) {
    && b.createdAt == a.createdAt && b.deadline == a.deadline
    && a.cleanupRevision <= b.cleanupRevision && a.periodRevision <= b.periodRevision
    && (a.cleanupRevision == b.cleanupRevision ==> a.cleanup == b.cleanup)
    && (a.periodRevision == b.periodRevision ==> a.periods == b.periods)
  }

  /** A tombstone stays, and from then on the locators it fences only disappear. */
  ghost predicate PartEvolves(a: Part, b: Part) {
    a.tombstone.Some? ==>
      && b.tombstone.Some?
      && TombstoneEvolves(a.tombstone.value, b.tombstone.value)
      && Shrinks(a.locators, b.locators)
  }

  ghost predicate LedgerEvolves(a: Ledger, b: Ledger) {
    && (forall o :: o in a.commands ==>
         && o in b.commands
         && b.commands[o].kind == a.commands[o].kind && b.commands[o].occurredAt == a.commands[o].occurredAt
         && (a.commands[o].completedAt.Some? ==> b.commands[o] == a.commands[o]))
    && (a.receipt.Some? ==> b.receipt == a.receipt)
  }

  /** `b` is a possible later state of the table that was once `a`. */
  ghost predicate Evolves(a: State, b: State) {
    && a.clock <= b.clock
    && a.closing <= b.closing
    && (forall c :: c in a.cells ==> c in b.cells && CandidateSteps.Evolves(a.cells[c], b.cells[c]))
    && (forall p :: PartEvolves(PartOf(a, p), PartOf(b, p)))
    && (forall e :: e in a.events ==> e in b.events && b.events[e].owner == a.events[e].owner)
    && (forall a' :: LedgerEvolves(LedgerOf(a, a'), LedgerOf(b, a')))
  }

  lemma EvolvesTransitive(a: State, b: State, c: State)
    requires Evolves(a, b) && Evolves(b, c)
    ensures Evolves(a, c)
  {
    forall i | i in a.cells ensures i in c.cells && CandidateSteps.Evolves(a.cells[i], c.cells[i]) {
      CandidateSteps.EvolvesTransitive(a.cells[i], b.cells[i], c.cells[i]);
    }
    forall p ensures PartEvolves(PartOf(a, p), PartOf(c, p)) {
      assert PartEvolves(PartOf(a, p), PartOf(b, p)) && PartEvolves(PartOf(b, p), PartOf(c, p));
    }
    forall x ensures LedgerEvolves(LedgerOf(a, x), LedgerOf(c, x)) {
      assert LedgerEvolves(LedgerOf(a, x), LedgerOf(b, x)) && LedgerEvolves(LedgerOf(b, x), LedgerOf(c, x));
    }
  }

  // ---------------------------------------------------------------- sound transactions

  ghost predicate AddsRow(x: Transaction, p: Partition, c: CandidateId, row: Row) {
    && x.locator == AddLocator(p, CandidateKey(c), row.expiresAt)
    && x.counted.Some? && x.counted.value.1 == (c, p.token)
    && row.expiresAt <= Horizon(p.period)
  }

  ghost predicate ErasesRow(s: State, x: Transaction, c: CandidateId, t: Token)
    requires c in s.cells
  {
    && x.counted.None?
    && (x.locator == DropLocator(Partition(s.cells[c].period, t), CandidateKey(c))
        || (x.locator.NoLocator? && t !in s.cells[c].rows))
  }

  ghost predicate CellWriteSound(s: State, x: Transaction) {
    match x.cell
    case NoCell => x.counted.None?
      && (!x.locator.NoLocator? ==> x.locator.key.EventKey?)
    case Create(c, cell) =>
      && c !in s.cells && x.counted.Some?
      && var t := x.counted.value.1.1;
      && t in cell.rows && Fresh(cell, t, cell.rows[t])
      && AddsRow(x, Partition(cell.period, t), c, cell.rows[t])
    case Modify(c, ch) =>
      && c in s.cells && Admissible(s.cells[c], ch)
      && match ch
         case Match(_, t, row) => AddsRow(x, Partition(s.cells[c].period, t), c, row)
         case Repeat(_, t, expiresAt) =>
           && x.locator.NoLocator? && x.counted.Some? && x.counted.value.1 == (c, t)
           && expiresAt == s.cells[c].rows[t].expiresAt
         case EraseLive(_, t) => ErasesRow(s, x, c, t) && PartOf(s, Partition(s.cells[c].period, t)).tombstone.Some?
         case EraseFinal(t) => ErasesRow(s, x, c, t)
         case EraseOrphan(t) => ErasesRow(s, x, c, t)
         case Appear(t, _) =>
           && x.counted.None?
           && (x.locator.NoLocator? || (x.locator.AddLocator? && x.locator.partition == Partition(s.cells[c].period, t)
                                        && x.locator.key == CandidateKey(c)))
         case Freeze(_, _) => x.locator.NoLocator? && x.counted.None? && s.cells[c].period in s.closing
         case Restart(_, cutoff) => x.locator.NoLocator? && x.counted.None? && cutoff <= s.clock
         case _ => x.locator.NoLocator? && x.counted.None?
  }

  ghost predicate LocatorWriteSound(s: State, x: Transaction) {
    match x.locator
    case NoLocator => true
    case AddLocator(p, key, _) =>
      && PartOf(s, p).tombstone.None?
      && (key.EventKey? ==> key.event !in s.events && x.event.Some? && x.event.value.0 == key.event && x.event.value.1.owner == p)
    case DropLocator(p, key) =>
      key.EventKey? ==>
        && key.event in s.events && s.events[key.event].owner == p && x.event.Some?
        && x.event.value == (key.event, s.events[key.event].(feature := false, clustered := None))
  }

  ghost predicate EventWriteSound(s: State, x: Transaction) {
    && (x.counted.Some? ==>
         var e := x.counted.value.0;
         && e in s.events && s.events[e].clustered.None? && EventKey(e) in PartOf(s, s.events[e].owner).locators
         && x.event == Some((e, s.events[e].(clustered := Some(Counted)))))
    && (x.event.Some? ==>
         var (e, v) := x.event.value;
         && (e in s.events ==> v.owner == s.events[e].owner)
         && (e in s.counted && e in s.events && EventKey(e) in PartOf(s, s.events[e].owner).locators
             && x.locator != DropLocator(s.events[e].owner, EventKey(e))
             ==> v.clustered == Some(Counted))
         && (v.feature || v.clustered.Some? ==>
              && x.locator != DropLocator(v.owner, EventKey(e))
              && (EventKey(e) in PartOf(s, v.owner).locators
                  || (x.locator.AddLocator? && x.locator.partition == v.owner && x.locator.key == EventKey(e)))))
  }

  ghost predicate FenceWriteSound(s: State, x: Transaction) {
    x.fence.Some? ==>
      var (p, tomb) := x.fence.value;
      && (PartOf(s, p).tombstone.Some? ==> TombstoneEvolves(PartOf(s, p).tombstone.value, tomb))
      && !(x.locator.AddLocator? && x.locator.partition == p)
      && (tomb.cleanup.Some? ==> KnownCleanup(s, p, tomb.cleanup.value))
  }

  ghost predicate RestSound(s: State, x: Transaction) {
    && (x.clock.Some? ==> s.clock <= x.clock.value)
    && (x.ledger.Some? ==> LedgerEvolves(LedgerOf(s, x.ledger.value.0), x.ledger.value.1))
  }

  /** The conditions under which a transaction keeps everything the protocol relies on. */
  ghost predicate Sound(s: State, x: Transaction) {
    Applicable(s, x.cell) && CellWriteSound(s, x) && LocatorWriteSound(s, x) && EventWriteSound(s, x) && FenceWriteSound(s, x) && RestSound(s, x)
  }

  /** A change of a candidate alone, other than adding to or erasing its contributions. */
  lemma CellOnlySound(s: State, c: CandidateId, ch: Change)
    requires c in s.cells && Admissible(s.cells[c], ch)
    requires !ch.Match? && !ch.Repeat? && !ch.EraseLive? && !ch.EraseFinal? && !ch.EraseOrphan? && !ch.Appear?
    requires (ch.Freeze? ==> s.cells[c].period in s.closing) && (ch.Restart? ==> ch.cutoff <= s.clock)
    ensures Sound(s, NO_WRITES.(cell := Modify(c, ch)))
  {
  }

  /** The erasure of a contribution together with its locator. */
  function PairDeleted(s: State, c: CandidateId, t: Token, ch: Change): Transaction
    requires c in s.cells
  {
    NO_WRITES.(cell := Modify(c, ch), locator := DropLocator(Partition(s.cells[c].period, t), CandidateKey(c)))
  }

  lemma PairDeletedSound(s: State, c: CandidateId, t: Token, ch: Change)
    requires c in s.cells && Admissible(s.cells[c], ch) && (ch == EraseFinal(t) || ch == EraseOrphan(t))
    ensures Sound(s, PairDeleted(s, c, t, ch))
  {
  }

  lemma PartAfter(s: State, x: Transaction, p: Partition)
    requires Sound(s, x)
    ensures PartOf(Apply(s, x), p).locators ==
            (if x.locator.NoLocator? || x.locator.partition != p then PartOf(s, p).locators
             else if x.locator.AddLocator? then PartOf(s, p).locators[x.locator.key := x.locator.expiresAt]
             else PartOf(s, p).locators - {x.locator.key})
    ensures PartOf(Apply(s, x), p).tombstone ==
            (if x.fence.Some? && x.fence.value.0 == p then Some(x.fence.value.1) else PartOf(s, p).tombstone)
  {
  }

  lemma CellsSoundKept(s: State, x: Transaction)
    requires CellsSound(s) && Sound(s, x)
    ensures CellsSound(Apply(s, x))
  {
    if x.cell.Modify? {
      CandidateSteps.InvKept(s.cells[x.cell.candidate], x.cell.change);
    }
  }

  /** What one transaction leaves of the rows of a candidate. */
  lemma RowsAfter(s: State, x: Transaction, c: CandidateId, t: Token)
    requires Sound(s, x) && c in Apply(s, x).cells && t in Apply(s, x).cells[c].rows
    ensures (c in s.cells && Apply(s, x).cells[c].period == s.cells[c].period && t in s.cells[c].rows
             && Apply(s, x).cells[c].rows[t].expiresAt == s.cells[c].rows[t].expiresAt
             && x.locator != DropLocator(Partition(s.cells[c].period, t), CandidateKey(c))
             && (x.counted.Some? && x.counted.value.1 == (c, t) ==>
                  Apply(s, x).cells[c].rows[t].submissions == s.cells[c].rows[t].submissions + 1)
             && (!(x.counted.Some? && x.counted.value.1 == (c, t)) ==>
                  Apply(s, x).cells[c].rows[t].submissions == s.cells[c].rows[t].submissions))
         || ((c !in s.cells || t !in s.cells[c].rows) && Apply(s, x).cells[c].rows[t].submissions == 1
             && AddsRow(x, Partition(Apply(s, x).cells[c].period, t), c, Apply(s, x).cells[c].rows[t]))
  {
  }

  lemma LocatedKept(s: State, x: Transaction)
    requires Located(s) && Sound(s, x)
    ensures Located(Apply(s, x))
  {
    var n := Apply(s, x);
    forall c, t | c in n.cells && t in n.cells[c].rows
      ensures var l := PartOf(n, Partition(n.cells[c].period, t)).locators;
              CandidateKey(c) in l && l[CandidateKey(c)] == n.cells[c].rows[t].expiresAt
    {
      RowsAfter(s, x, c, t);
      PartAfter(s, x, Partition(n.cells[c].period, t));
    }
  }

  lemma KnownKeyKept(s: State, x: Transaction, p: Partition, key: LocatorKey)
    requires Sound(s, x)
    requires KnownKey(s, p, key) || (x.locator.AddLocator? && x.locator.partition == p && x.locator.key == key)
    ensures KnownKey(Apply(s, x), p, key)
  {
  }

  lemma KnownKept(s: State, x: Transaction)
    requires Known(s) && Sound(s, x)
    ensures Known(Apply(s, x))
  {
    var n := Apply(s, x);
    forall p, key | p in n.parts && key in n.parts[p].locators ensures KnownKey(n, p, key) {
      PartAfter(s, x, p);
      assert n.parts[p] == PartOf(n, p);
      KnownKeyKept(s, x, p, key);
    }
    forall p | p in n.parts && n.parts[p].tombstone.Some? && n.parts[p].tombstone.value.cleanup.Some?
      ensures KnownCleanup(n, p, n.parts[p].tombstone.value.cleanup.value)
    {
      PartAfter(s, x, p);
      assert n.parts[p] == PartOf(n, p);
      var cleanup := n.parts[p].tombstone.value.cleanup.value;
      assert KnownCleanup(s, p, cleanup);
      if !cleanup.Seek? { KnownKeyKept(s, x, p, cleanup.locator.key); }
    }
  }

  lemma EventsOwnedKept(s: State, x: Transaction)
    requires EventsOwned(s) && Sound(s, x)
    ensures EventsOwned(Apply(s, x))
  {
    var n := Apply(s, x);
    forall e | e in n.events ensures EventOwned(n, e) { EventOwnedKept(s, x, e); }
    CountedKnown(s, x);
  }

  /** One event's records and mark. */
  ghost predicate EventOwned(s: State, e: EventId)
    requires e in s.events
  {
    && (s.events[e].feature || s.events[e].clustered.Some? ==> EventKey(e) in PartOf(s, s.events[e].owner).locators)
    && (e in s.counted && EventKey(e) in PartOf(s, s.events[e].owner).locators ==> s.events[e].clustered == Some(Counted))
  }

  lemma EventOwnedKept(s: State, x: Transaction, e: EventId)
    requires EventsOwned(s) && Sound(s, x) && e in Apply(s, x).events
    ensures EventOwned(Apply(s, x), e)
  {
    RecordsKept(s, x, e);
    MarkKept(s, x, e);
  }

  lemma RecordsKept(s: State, x: Transaction, e: EventId)
    requires EventsOwned(s) && Sound(s, x) && e in Apply(s, x).events
    ensures var n := Apply(s, x);
            n.events[e].feature || n.events[e].clustered.Some? ==> EventKey(e) in PartOf(n, n.events[e].owner).locators
  {
    PartAfter(s, x, Apply(s, x).events[e].owner);
  }

  lemma MarkKept(s: State, x: Transaction, e: EventId)
    requires EventsOwned(s) && Sound(s, x) && e in Apply(s, x).events
    ensures var n := Apply(s, x);
            e in n.counted && EventKey(e) in PartOf(n, n.events[e].owner).locators ==> n.events[e].clustered == Some(Counted)
  {
    PartAfter(s, x, Apply(s, x).events[e].owner);
  }

  lemma CountedKnown(s: State, x: Transaction)
    requires EventsOwned(s) && Sound(s, x)
    ensures forall e :: e in Apply(s, x).counted ==> e in Apply(s, x).events
  {
  }

  lemma NotAddedUnderFence(s: State, x: Transaction, c: CandidateId, t: Token)
    requires Sound(s, x) && c in s.cells && t in Apply(s, x).cells[c].rows && t !in s.cells[c].rows
    ensures !RowOrFence(s, c, t)
  {
  }

  /** A contributor whose contribution was erased cannot be added to the candidate again. */
  lemma NewRowNeverCounted(s: State, x: Transaction, c: CandidateId, t: Token)
    requires Conserved(s) && Sound(s, x) && c in Apply(s, x).cells && t in Apply(s, x).cells[c].rows
    requires c !in s.cells || t !in s.cells[c].rows
    ensures CountedFor(s.counted, c, t) == {}
  {
    forall o | o in s.counted ensures s.counted[o] != (c, t) {
      var (oc, ot) := s.counted[o];
      if oc == c && ot == t { NotAddedUnderFence(s, x, c, t); }
    }
  }

  lemma CountedOnce(counted: map<EventId, (CandidateId, Token)>, e: EventId, at: (CandidateId, Token), c: CandidateId, t: Token)
    requires e !in counted
    ensures |CountedFor(counted[e := at], c, t)| == |CountedFor(counted, c, t)| + if at == (c, t) then 1 else 0
  {
    if at == (c, t) {
      assert CountedFor(counted[e := at], c, t) == CountedFor(counted, c, t) + {e};
    } else {
      assert CountedFor(counted[e := at], c, t) == CountedFor(counted, c, t);
    }
  }

  lemma CountedAfter(s: State, x: Transaction, c: CandidateId, t: Token)
    requires Conserved(s) && EventsOwned(s) && Sound(s, x) && c in Apply(s, x).cells && t in Apply(s, x).cells[c].rows
    ensures Apply(s, x).cells[c].rows[t].submissions == |CountedFor(Apply(s, x).counted, c, t)|
  {
    if x.counted.Some? { CountedOnce(s.counted, x.counted.value.0, x.counted.value.1, c, t); }
    RowsAfter(s, x, c, t);
    if c !in s.cells || t !in s.cells[c].rows {
      NewRowNeverCounted(s, x, c, t);
    } else {
      assert s.cells[c].rows[t].submissions == |CountedFor(s.counted, c, t)|;
    }
  }

  lemma FencedAfter(s: State, x: Transaction, c: CandidateId, t: Token)
    requires Sound(s, x) && RowOrFence(s, c, t)
    requires c in s.cells || (x.counted.Some? && x.counted.value.1 == (c, t))
    ensures RowOrFence(Apply(s, x), c, t)
  {
    if c in s.cells { PartAfter(s, x, Partition(s.cells[c].period, t)); }
  }

  lemma ConservedKept(s: State, x: Transaction)
    requires Conserved(s) && EventsOwned(s) && Sound(s, x)
    ensures Conserved(Apply(s, x))
  {
    var n := Apply(s, x);
    forall c, t | c in n.cells && t in n.cells[c].rows
      ensures n.cells[c].rows[t].submissions == |CountedFor(n.counted, c, t)|
    {
      CountedAfter(s, x, c, t);
    }
    forall e | e in n.counted ensures n.counted[e].0 in n.cells && RowOrFence(n, n.counted[e].0, n.counted[e].1) {
      if e in s.counted && n.counted[e] == s.counted[e] {
        FencedAfter(s, x, s.counted[e].0, s.counted[e].1);
      }
    }
  }

  lemma TimelyKept(s: State, x: Transaction)
    requires Timely(s) && Sound(s, x)
    ensures Timely(Apply(s, x))
  {
    var n := Apply(s, x);
    forall c, t | c in n.cells && t in n.cells[c].rows ensures n.cells[c].rows[t].expiresAt <= Horizon(n.cells[c].period) {
      RowsAfter(s, x, c, t);
    }
    forall c | c in n.cells && n.cells[c].checkpoint.Some? ensures n.cells[c].checkpoint.value.cutoff <= n.clock {
      CutoffAfter(s, x, c);
    }
  }

  lemma CutoffAfter(s: State, x: Transaction, c: CandidateId)
    requires Timely(s) && Sound(s, x) && c in Apply(s, x).cells && Apply(s, x).cells[c].checkpoint.Some?
    ensures Apply(s, x).cells[c].checkpoint.value.cutoff <= s.clock <= Apply(s, x).clock
  {
  }

  lemma CellEvolvesKept(s: State, x: Transaction, c: CandidateId)
    requires CellsSound(s) && Applicable(s, x.cell) && (x.cell.Create? ==> x.cell.candidate !in s.cells) && c in s.cells
    ensures c in Apply(s, x).cells && CandidateSteps.Evolves(s.cells[c], Apply(s, x).cells[c])
  {
    if x.cell.Modify? && x.cell.candidate == c { CandidateSteps.EvolvesStep(s.cells[c], x.cell.change); }
  }

  lemma PartEvolvesKept(s: State, x: Transaction, p: Partition)
    requires Sound(s, x)
    ensures PartEvolves(PartOf(s, p), PartOf(Apply(s, x), p))
  {
    PartAfter(s, x, p);
  }

  lemma RestEvolvesKept(s: State, x: Transaction)
    requires Applicable(s, x.cell) && RestSound(s, x)
    ensures forall a :: LedgerEvolves(LedgerOf(s, a), LedgerOf(Apply(s, x), a))
  {
  }

  lemma EvolvesKept(s: State, x: Transaction)
    requires CellsSound(s) && Sound(s, x)
    ensures Evolves(s, Apply(s, x))
  {
    forall c | c in s.cells ensures c in Apply(s, x).cells && CandidateSteps.Evolves(s.cells[c], Apply(s, x).cells[c]) {
      CellEvolvesKept(s, x, c);
    }
    forall p ensures PartEvolves(PartOf(s, p), PartOf(Apply(s, x), p)) { PartEvolvesKept(s, x, p); }
    RestEvolvesKept(s, x);
  }

  /** A sound transaction keeps the invariant and leads to a possible later state. */
  lemma InvKept(s: State, x: Transaction)
    requires Inv(s) && Sound(s, x)
    ensures Inv(Apply(s, x)) && Evolves(s, Apply(s, x))
  {
    CellsSoundKept(s, x);
    LocatedKept(s, x);
    KnownKept(s, x);
    EventsOwnedKept(s, x);
    ConservedKept(s, x);
    TimelyKept(s, x);
    EvolvesKept(s, x);
  }
}
