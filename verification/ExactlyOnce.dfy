/** Completion happens exactly once, and only over an empty record. */
module ExactlyOnce {
  import opened Basics
  import opened Candidate
  import opened CandidateSteps
  import opened Table
  import opened Observations
  import opened Protocol
  import opened Fences
  import opened Erasure
  import opened RepairedRuns
  import Completion
  import Surroundings

  type History = Observations.History

  // ---------------------------------------------------------------- one account's ledger

  /** The control row counts the pending jobs; a sealed account has none and has its receipt; a
      finished withdrawal has exactly its audit row. */
  ghost predicate LedgerInv(l: Ledger) {
    && l.jobs <= l.commands.Keys
    && (l.control.None? ==> l.jobs == {} && l.receipt.None?)
    && (l.control.Some? ==>
         && l.control.value.pendingJobs == |l.jobs|
         && (l.control.value.sealed <==> l.receipt.Some?))
    && (l.receipt.Some? ==> l.jobs == {} && l.receipt.value.operation in l.commands)
    && (forall o :: o in l.jobs ==> l.commands[o].completedAt.None?)
    && (forall o :: o in l.audits <==>
         o in l.commands && l.commands[o].kind.Withdrawal? && l.commands[o].completedAt.Some?)
  }

  /** A command whose job is gone never gets a job again. */
  ghost predicate JobsStayDone(a: Ledger, b: Ledger) {
    forall o :: o in a.commands && o !in a.jobs ==> o in b.commands && o !in b.jobs
  }

  lemma RequestKeeps(l: Ledger, op: Operation, kind: CommandKind, now: nat)
    requires LedgerInv(l) && op !in l.commands && l.receipt.None? && (l.control.Some? ==> !l.control.value.sealed)
    ensures LedgerInv(Surroundings.Requested(l, op, kind, now)) && JobsStayDone(l, Surroundings.Requested(l, op, kind, now))
  {
  }

  /** The last withdrawal removes the control row and any other command keeps it, one job lower;
      an account deletion is the last job and seals the account. */
  lemma CompletionKeeps(l: Ledger, w: Worker, now: nat)
    requires LedgerInv(l) && w.operation in l.jobs && l.receipt.None?
    requires l.commands[w.operation].kind.AccountDeletion? ==> l.jobs == {w.operation}
    ensures var n := Completion.Completed(l, w, now);
            && LedgerInv(n) && JobsStayDone(l, n)
            && w.operation !in n.jobs && |n.jobs| == |l.jobs| - 1
            && (n.control.None? <==> n.jobs == {} && l.commands[w.operation].kind.Withdrawal?)
            && (l.commands[w.operation].kind.AccountDeletion? ==> n.receipt == Some(Receipt(w.operation, now)) && n.control.value.sealed)
            && (l.commands[w.operation].kind.Withdrawal? ==>
                 n.receipt.None? && n.audits == l.audits[w.operation := now] && n.commands[w.operation].completedAt == Some(now))
  {
    assert |l.jobs - {w.operation}| == |l.jobs| - 1;
  }

  lemma OnlyJob(jobs: set<Operation>, op: Operation)
    requires op in jobs && |jobs| == 1
    ensures jobs == {op}
  {
    assert |jobs - {op}| == 0;
  }

  ghost predicate LedgerWrite(s: State, x: Transaction, a: Account) {
    x.ledger.Some? && x.ledger.value.0 == a ==>
      LedgerInv(x.ledger.value.1) && JobsStayDone(LedgerOf(s, a), x.ledger.value.1)
  }

  lemma SurroundingLedger(h: History, k: nat, step: Surroundings.SurroundingStep, a: Account)
    requires k < |h| && Surroundings.Enabled(h, k, step) && LedgerInv(LedgerOf(h[k], a))
    ensures LedgerWrite(h[k], Surroundings.Writes(h, k, step), a)
  {
    if step.Request? && step.account == a {
      RequestKeeps(LedgerOf(h[k], a), step.operation, step.kind, h[k].clock);
    }
  }

  lemma CompletionLedger(h: History, k: nat, step: Completion.CompletionStep, a: Account)
    requires k < |h| && Completion.Enabled(h, k, step) && LedgerInv(LedgerOf(h[k], a))
    ensures LedgerWrite(h[k], Completion.Writes(h, k, step), a)
  {
    if step.worker.account == a { CompletionApplies(h[k], step.worker, step.now); }
  }

  lemma CompletionApplies(s: State, w: Worker, now: nat)
    requires Completion.CompletionGuard(s, w) && LedgerInv(LedgerOf(s, w.account))
    ensures var l := LedgerOf(s, w.account);
            var n := Completion.Completed(l, w, now);
            LedgerInv(n) && JobsStayDone(l, n) && |n.jobs| == |l.jobs| - 1 && w.operation in l.jobs && w.operation !in n.jobs
  {
    var l := LedgerOf(s, w.account);
    if l.commands[w.operation].kind.AccountDeletion? { OnlyJob(l.jobs, w.operation); }
    CompletionKeeps(l, w, now);
  }

  lemma StepLedger(h: History, k: nat, step: Step, a: Account)
    requires k < |h| && Protocol.Enabled(h, k, step) && LedgerInv(LedgerOf(h[k], a))
    ensures LedgerWrite(h[k], Protocol.Writes(h, k, step), a)
  {
    match step
    case Complete(x) => CompletionLedger(h, k, x, a);
    case Surround(x) => SurroundingLedger(h, k, x, a);
    case _ =>
  }

  lemma LedgerAfter(s: State, x: Transaction, a: Account)
    requires Applicable(s, x.cell) && LedgerWrite(s, x, a) && LedgerInv(LedgerOf(s, a))
    ensures LedgerInv(LedgerOf(Apply(s, x), a)) && JobsStayDone(LedgerOf(s, a), LedgerOf(Apply(s, x), a))
  {
  }

  lemma RunLedgerStep(h: History, steps: seq<Step>, k: nat, a: Account)
    requires Run(h, steps) && k < |steps| && LedgerInv(LedgerOf(h[k], a))
    ensures LedgerInv(LedgerOf(h[k + 1], a)) && JobsStayDone(LedgerOf(h[k], a), LedgerOf(h[k + 1], a))
  {
    RunApplies(h, steps, k);
    StepLedger(h[..k + 1], k, steps[k], a);
    LedgerAfter(h[k], Protocol.Writes(h[..k + 1], k, steps[k]), a);
  }

  /** In every reachable state the control row agrees with the jobs, the receipt and the audits. */
  lemma {:induction false} RunLedger(h: History, steps: seq<Step>, k: nat, a: Account)
    requires Run(h, steps) && k < |h|
    ensures LedgerInv(LedgerOf(h[k], a))
  {
    if k > 0 {
      RunLedger(h, steps, k - 1, a);
      RunLedgerStep(h, steps, k - 1, a);
    }
  }

  lemma {:induction false} RunJobsStayDone(h: History, steps: seq<Step>, i: nat, j: nat, a: Account, op: Operation)
    requires Run(h, steps) && i <= j < |h| && op in LedgerOf(h[i], a).commands && op !in LedgerOf(h[i], a).jobs
    ensures op in LedgerOf(h[j], a).commands && op !in LedgerOf(h[j], a).jobs
  {
    if i < j {
      RunJobsStayDone(h, steps, i, j - 1, a, op);
      RunLedger(h, steps, j - 1, a);
      RunLedgerStep(h, steps, j - 1, a);
    }
  }

  // ---------------------------------------------------------------- completions

  predicate CompletesAt(steps: seq<Step>, k: nat, w: Worker) {
    k < |steps| && steps[k].Complete? && steps[k].complete.worker == w
  }

  lemma CompletionSeen(h: History, steps: seq<Step>, k: nat, w: Worker)
    requires Run(h, steps) && CompletesAt(steps, k, w)
    ensures Completion.Enabled(h[..k + 1], k, steps[k].complete)
    ensures Completion.CompletionGuard(h[k], w)
    ensures LedgerOf(h[k + 1], w.account) == Completion.Completed(LedgerOf(h[k], w.account), w, steps[k].complete.now)
  {
    RunApplies(h, steps, k);
  }

  /** The one transaction that completes a command removes its job, lowers the count by exactly one
      and leaves the ledger consistent. */
  lemma CompletionEffect(h: History, steps: seq<Step>, k: nat, w: Worker)
    requires Run(h, steps) && CompletesAt(steps, k, w)
    ensures w.operation in LedgerOf(h[k], w.account).jobs && w.operation !in LedgerOf(h[k + 1], w.account).jobs
    ensures w.operation in LedgerOf(h[k + 1], w.account).commands
    ensures |LedgerOf(h[k + 1], w.account).jobs| == |LedgerOf(h[k], w.account).jobs| - 1
    ensures !CommandLive(h[k + 1], w)
  {
    CompletionSeen(h, steps, k, w);
    RunLedger(h, steps, k, w.account);
    CompletionApplies(h[k], w, steps[k].complete.now);
  }

  /** However many completions race, and whatever answers are lost, one command completes once. */
  lemma CompletedOnce(h: History, steps: seq<Step>, i: nat, j: nat, w: Worker)
    requires Run(h, steps) && CompletesAt(steps, i, w) && CompletesAt(steps, j, w)
    ensures i == j
  {
    if i != j {
      var a, b := if i < j then i else j, if i < j then j else i;
      CompletionEffect(h, steps, a, w);
      RunJobsStayDone(h, steps, a + 1, b, w.account, w.operation);
      CompletionEffect(h, steps, b, w);
    }
  }

  lemma LedgersEvolve(a: State, b: State, x: Account)
    requires Table.Evolves(a, b)
    ensures LedgerEvolves(LedgerOf(a, x), LedgerOf(b, x))
  {
  }

  lemma StaysDead(a: State, b: State, w: Worker)
    requires Table.Evolves(a, b) && w.operation in LedgerOf(a, w.account).commands && !CommandLive(a, w)
    ensures !CommandLive(b, w)
  {
    LedgersEvolve(a, b, w.account);
  }

  predicate ActsFor(step: Step, w: Worker) {
    || (step.Traverse? && step.traverse.worker == w)
    || (step.Mend? && step.mend.worker == w)
    || (step.Complete? && step.complete.worker == w)
  }

  lemma ActingNeedsLive(h: History, k: nat, step: Step, w: Worker)
    requires k < |h| && Protocol.Enabled(h, k, step) && ActsFor(step, w)
    ensures CommandLive(h[k], w)
  {
  }

  /** After its completion no cleanup of the command commits, however late it was begun. */
  lemma NothingAfterCompletion(h: History, steps: seq<Step>, k: nat, j: nat, w: Worker)
    requires Run(h, steps) && CompletesAt(steps, k, w) && k < j < |steps|
    ensures !ActsFor(steps[j], w)
  {
    CompletionEffect(h, steps, k, w);
    RunEvolves(h, steps, k + 1, j);
    StaysDead(h[k + 1], h[j], w);
    if ActsFor(steps[j], w) {
      RunApplies(h, steps, j);
      ActingNeedsLive(h[..j + 1], j, steps[j], w);
    }
  }

  lemma EmptyPeriodSeen(h: History, steps: seq<Step>, k: nat, w: Worker, period: nat)
      returns (x: nat, y: nat)
    requires Run(h, steps) && CompletesAt(steps, k, w)
    requires w.operation in LedgerOf(h[k], w.account).commands && steps[k].complete.minimum <= period
    requires period <= Completion.NewestPeriod(LedgerOf(h[k], w.account).commands[w.operation].occurredAt)
    ensures Completion.PeriodEmpty(h[..k + 1], k, w, LedgerOf(h[k], w.account).commands[w.operation].occurredAt, period, x, y)
  {
    CompletionSeen(h, steps, k, w);
    var i := period - steps[k].complete.minimum;
    x, y := steps[k].complete.evidence[i].0, steps[k].complete.evidence[i].1;
  }

  /** A command completes only when, in every retained period that has begun by the time it occurred, the
      contributor's tombstone is idle for this very operation, every candidate that lost their contribution
      while it was live has been repaired since, and nothing the protocol wrote for the contributor is left,
      then or later. */
  lemma CompletedOverNothing(h: History, steps: seq<Step>, k: nat, j: nat, w: Worker, period: nat)
    requires Run(h, steps) && CompletesAt(steps, k, w) && k <= j < |h|
    requires w.operation in LedgerOf(h[k], w.account).commands && steps[k].complete.minimum <= period
    requires period * PERIOD_SECONDS <= LedgerOf(h[k], w.account).commands[w.operation].occurredAt
    ensures PartOf(h[k], OwnPartition(w, period)).tombstone.Some?
    ensures PartOf(h[k], OwnPartition(w, period)).tombstone.value.cleanup == Some(Seek(w.operation, None))
    ensures Erased(h[j], OwnPartition(w, period)) && AllRepaired(h, k, OwnPartition(w, period))
  {
    Completion.NewestHasBegun(LedgerOf(h[k], w.account).commands[w.operation].occurredAt, period);
    var x, y := EmptyPeriodSeen(h, steps, k, w, period);
    FencedLocatorsShrink(h, steps, x, y, OwnPartition(w, period));
    NoResurrection(h, steps, y, j, OwnPartition(w, period));
    SeekingMeansRepaired(h, steps, k, OwnPartition(w, period));
  }
}
