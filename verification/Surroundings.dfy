/** What the rest of the system does to the table: time, admission, review, account requests. */
module Surroundings {
  import opened Basics
  import opened Candidate
  import opened CandidateSteps
  import opened Table
  import opened Observations

  datatype SurroundingStep =
    | Tick(now: nat)
    | ClosePeriod(period: nat)
    | AdmitFeature(event: EventId, owner: Partition, expiresAt: nat)
    | AppearRow(candidate: CandidateId, token: Token, stray: Stray, located: bool)
    | ReviewAggregate(candidate: CandidateId, review: Review, version: nat)
    | Request(account: Account, operation: Operation, kind: CommandKind)
    | FinalizeAccount(account: Account, operation: Operation, now: nat)

  function Requested(l: Ledger, op: Operation, kind: CommandKind, now: nat): Ledger {
    Ledger(l.commands[op := Command(kind, now, None)], l.jobs + {op},
           Some(if l.control.None? then Control(1, 1, false)
                else Control(l.control.value.revision + 1, l.control.value.pendingJobs + 1, l.control.value.sealed)),
           l.receipt, l.audits)
  }

  /** The guard of a step, evaluated against its reads and the state it commits to. */
  ghost predicate Enabled(h: History, k: nat, step: SurroundingStep)
    requires k < |h|
  {
    var s := h[k];
    match step
    case Tick(now) => s.clock <= now
    case ClosePeriod(period) => s.clock >= (period + 1) * PERIOD_SECONDS
    case AdmitFeature(e, owner, _) =>
      e !in s.events && PartOf(s, owner).tombstone.None? && owner.period !in s.closing
    case AppearRow(c, t, _, located) =>
      && c in s.cells && s.cells[c].summary.Some? && t !in s.cells[c].rows && t !in s.cells[c].strays
      && (located ==> PartOf(s, OwnerOf(s, c, t)).tombstone.None?)
    case ReviewAggregate(c, _, _) => c in s.cells && s.cells[c].aggregate.Some?
    case Request(a, op, kind) =>
      var l := LedgerOf(s, a);
      && op !in l.commands && l.receipt.None? && (l.control.Some? ==> !l.control.value.sealed)
      && (kind.AccountDeletion? ==> forall o :: o in l.commands ==> !l.commands[o].kind.AccountDeletion?)
    case FinalizeAccount(a, op, now) =>
      var l := LedgerOf(s, a);
      && op in l.commands && l.commands[op].kind.AccountDeletion? && l.commands[op].completedAt.None?
      && l.receipt.Some? && l.receipt.value.operation == op
  }

  /** The writes of a step. */
  ghost function Writes(h: History, k: nat, step: SurroundingStep): Transaction
    requires k < |h| && Enabled(h, k, step)
  {
    var s := h[k];
    match step
    case Tick(now) => NO_WRITES.(clock := Some(now))
    case ClosePeriod(period) => NO_WRITES.(closes := Some(period))
    case AdmitFeature(e, owner, expiresAt) =>
      NO_WRITES.(event := Some((e, Event(owner, expiresAt, true, None))), locator := AddLocator(owner, EventKey(e), expiresAt))
    case AppearRow(c, t, stray, located) =>
      NO_WRITES.(cell := Modify(c, Appear(t, stray)),
                 locator := if located then AddLocator(OwnerOf(s, c, t), CandidateKey(c), stray.expiresAt) else NoLocator)
    case ReviewAggregate(c, review, version) => NO_WRITES.(cell := Modify(c, Change.Review(review, version)))
    case Request(a, op, kind) => NO_WRITES.(ledger := Some((a, Requested(LedgerOf(s, a), op, kind, s.clock))))
    case FinalizeAccount(a, op, now) =>
      var l := LedgerOf(s, a);
      NO_WRITES.(ledger := Some((a, l.(commands := l.commands[op := l.commands[op].(completedAt := Some(now))]))))
  }

  lemma StepSound(h: History, k: nat, step: SurroundingStep)
    requires Coherent(h, k) && Enabled(h, k, step)
    ensures Sound(h[k], Writes(h, k, step))
  {
    assert SoundAt(h, k);
  }
}
