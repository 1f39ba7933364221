/** The once-only completion of a deletion command. */
module Completion {
  import opened Basics
  import opened Candidate
  import opened CandidateSteps
  import opened Table
  import opened Observations
  import opened Fences

  /** `evidence` holds, for every retained period, when its tombstone and its partition were read. */
  datatype CompletionStep =
    | CompleteCommand(worker: Worker, now: nat, minimum: nat, evidence: seq<(nat, nat)>)

  predicate Idle(tomb: Tombstone, w: Worker, occurredAt: nat) {
    && tomb.cleanupRevision >= 1 && tomb.cleanup == Some(Seek(w.operation, None))
    && tomb.createdAt <= occurredAt
  }

  function NewestPeriod(occurredAt: nat): nat { occurredAt / PERIOD_SECONDS }

  /** The newest period a command covers is the last one that has begun when it occurs. */
  lemma NewestHasBegun(occurredAt: nat, period: nat)
    ensures period <= NewestPeriod(occurredAt) <==> period * PERIOD_SECONDS <= occurredAt
    ensures NewestPeriod(occurredAt) * PERIOD_SECONDS <= occurredAt < (NewestPeriod(occurredAt) + 1) * PERIOD_SECONDS
  {
  }

  /** For every retained period: the tombstone was idle, then its partition held nothing else, and
      the tombstone is still exactly that one when the transaction commits. */
  ghost predicate PeriodsEmpty(h: History, k: nat, w: Worker, occurredAt: nat, minimum: nat, evidence: seq<(nat, nat)>)
    requires k < |h|
  {
    && minimum <= NewestPeriod(occurredAt)
    && |evidence| == NewestPeriod(occurredAt) - minimum + 1
    && forall i :: 0 <= i < |evidence| ==> PeriodEmpty(h, k, w, occurredAt, minimum + i, evidence[i].0, evidence[i].1)
  }

  ghost predicate PeriodEmpty(h: History, k: nat, w: Worker, occurredAt: nat, period: nat, x: nat, y: nat)
    requires k < |h|
  {
    var p := OwnPartition(w, period);
    && x <= y <= k && FenceSeen(h, x, p) && Idle(FenceAt(h, x, p), w, occurredAt)
    && PartOf(h[y], p).locators == map[]
    && PartOf(h[k], p).tombstone == PartOf(h[x], p).tombstone
  }

  /** The mutating completion transaction's effect on the account's ledger. */
  function Completed(l: Ledger, w: Worker, now: nat): Ledger
    requires w.operation in l.commands && l.control.Some?
  {
    var control := l.control.value;
    if l.commands[w.operation].kind.AccountDeletion? then
      l.(jobs := l.jobs - {w.operation},
         control := Some(Control(control.revision + 1, 0, true)),
         receipt := Some(Receipt(w.operation, now)))
    else
      l.(jobs := l.jobs - {w.operation},
         control := if control.pendingJobs <= 1 then None
                    else Some(Control(control.revision + 1, control.pendingJobs - 1, control.sealed)),
         commands := l.commands[w.operation := l.commands[w.operation].(completedAt := Some(now))],
         audits := l.audits[w.operation := now])
  }

  predicate CompletionGuard(s: State, w: Worker) {
    var l := LedgerOf(s, w.account);
    && CommandLive(s, w) && w.operation in l.jobs
    && l.control.Some? && !l.control.value.sealed && l.control.value.pendingJobs >= 1
    && (l.commands[w.operation].kind.AccountDeletion? ==> l.control.value.pendingJobs == 1)
  }

  /** The guard of the mutating transaction, evaluated against its reads and the state it commits to. */
  ghost predicate Enabled(h: History, k: nat, step: CompletionStep)
    requires k < |h|
  {
    var s := h[k];
    match step
    case CompleteCommand(w, now, minimum, evidence) =>
      && CompletionGuard(s, w) && now <= s.clock
      && PeriodsEmpty(h, k, w, LedgerOf(s, w.account).commands[w.operation].occurredAt, minimum, evidence)
  }

  ghost function Writes(h: History, k: nat, step: CompletionStep): Transaction
    requires k < |h| && Enabled(h, k, step)
  {
    var s := h[k];
    match step
    case CompleteCommand(w, now, minimum, evidence) =>
      NO_WRITES.(ledger := Some((w.account, Completed(LedgerOf(s, w.account), w, now))))
  }

  lemma StepSound(h: History, k: nat, step: CompletionStep)
    requires Coherent(h, k) && Enabled(h, k, step)
    ensures Sound(h[k], Writes(h, k, step))
  {
  }
}
