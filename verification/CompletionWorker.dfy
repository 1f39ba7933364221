/** Completing one deletion command: prove every retained period empty, then one mutating
    transaction; if its answer is lost, one replay that can only verify. */
module CompletionWorker {
  import opened Basics
  import opened Candidate
  import opened Table
  import opened Observations
  import opened Fences
  import opened Store
  import opened Protocol
  import opened Erasure
  import opened ExactlyOnce
  import opened SweepWorker
  import RecomputeWorker
  import Completion

  type History = Observations.History
  type Step = Protocol.Step

  /** `already` tells a verified replay from the completion itself. */
  datatype Verdict = Proved(already: bool) | TerminalAcknowledged | Unverified

  function CommandOf(s: State, w: Worker): Option<Command> {
    var commands := LedgerOf(s, w.account).commands;
    if w.operation in commands then Some(commands[w.operation]) else None
  }

  /** The durable evidence of a completed campaign deletion. */
  predicate Evidenced(s: State, w: Worker, command: Command) {
    var l := LedgerOf(s, w.account);
    w.operation !in l.jobs
    && if command.kind.AccountDeletion? then l.receipt.Some? && l.receipt.value.operation == w.operation
       else CommandOf(s, w).Some? && CommandOf(s, w).value.completedAt.Some? && w.operation in l.audits
  }

  // ---------------------------------------------------------------- proving the periods empty

  /** Each period's tombstone was seen idle, and after that its partition without any locator. */
  ghost predicate SeenIdleEmpty(h: History, w: Worker, occurredAt: nat, period: nat, tomb: Tombstone, at: (nat, nat)) {
    var p := OwnPartition(w, period);
    && at.0 <= at.1 < |h| && HasFence(h, at.0, p, tomb) && Completion.Idle(tomb, w, occurredAt)
    && PartOf(h[at.1], p).locators == map[]
  }

  ghost predicate SeenAll(h: History, w: Worker, occurredAt: nat, minimum: nat, tombs: seq<Tombstone>, evidence: seq<(nat, nat)>) {
    |tombs| == |evidence| && forall i :: 0 <= i < |tombs| ==> SeenIdleEmpty(h, w, occurredAt, minimum + i, tombs[i], evidence[i])
  }

  method ReadPeriod(store: Store, w: Worker, occurredAt: nat, period: nat) returns (tomb: Option<Tombstone>, ghost at: (nat, nat))
    requires store.Valid()
    modifies store
    ensures store.Valid() && store.Continues() && store.own == old(store.own)
    ensures tomb.Some? ==> SeenIdleEmpty(store.h, w, occurredAt, period, tomb.value, at)
  {
    var p := OwnPartition(w, period);
    store.Interfere();
    ghost var x := |store.h| - 1;
    tomb := Fence(store.state, p);
    store.Interfere();
    at := (x, |store.h| - 1);
    if tomb.Some? && !(Completion.Idle(tomb.value, w, occurredAt) && PartOf(store.state, p) == Part(tomb, map[])) { tomb := None; }
  }

  method ReadPeriods(store: Store, w: Worker, occurredAt: nat, minimum: nat, newest: nat)
      returns (tombs: seq<Tombstone>, ok: bool, ghost evidence: seq<(nat, nat)>)
    requires store.Valid() && minimum <= newest
    modifies store
    ensures store.Valid() && store.Continues() && store.own == old(store.own)
    ensures ok ==> |tombs| == newest - minimum + 1 && SeenAll(store.h, w, occurredAt, minimum, tombs, evidence)
  {
    tombs, evidence := [], [];
    while |tombs| <= newest - minimum
      invariant store.Valid() && store.Continues() && store.own == old(store.own)
      invariant |tombs| <= newest - minimum + 1 && SeenAll(store.h, w, occurredAt, minimum, tombs, evidence)
      decreases newest + 1 - minimum - |tombs|
    {
      var tomb, at := ReadPeriod(store, w, occurredAt, minimum + |tombs|);
      if tomb.None? { return tombs, false, evidence; }
      tombs, evidence := tombs + [tomb.value], evidence + [at];
    }
    ok := true;
  }

  // ---------------------------------------------------------------- conditions and writes

  predicate Unmoved(s: State, w: Worker, minimum: nat, tombs: seq<Tombstone>) {
    forall i | 0 <= i < |tombs| :: Fence(s, OwnPartition(w, minimum + i)) == Some(tombs[i])
  }

  predicate MayComplete(s: State, w: Worker, command: Command, control: Control, minimum: nat, tombs: seq<Tombstone>) {
    && Completion.CompletionGuard(s, w) && CommandOf(s, w) == Some(command) && LedgerOf(s, w.account).control == Some(control)
    && Unmoved(s, w, minimum, tombs)
  }

  function CompleteGuard(w: Worker, command: Command, control: Control, minimum: nat, tombs: seq<Tombstone>): State -> bool {
    s => MayComplete(s, w, command, control, minimum, tombs)
  }

  function Completing(w: Worker, now: nat): State --> Transaction {
    (s: State) requires w.operation in LedgerOf(s, w.account).commands && LedgerOf(s, w.account).control.Some? =>
      NO_WRITES.(ledger := Some((w.account, Completion.Completed(LedgerOf(s, w.account), w, now))))
  }

  function ReplayGuard(w: Worker, command: Command, minimum: nat, tombs: seq<Tombstone>): State -> bool {
    s => Evidenced(s, w, command) && Unmoved(s, w, minimum, tombs)
  }

  lemma SeenPeriodsEmpty(h: History, h': History, w: Worker, occurredAt: nat, minimum: nat, tombs: seq<Tombstone>, evidence: seq<(nat, nat)>)
    requires SeenAll(h, w, occurredAt, minimum, tombs, evidence) && h <= h' && h' != [] && Unmoved(Last(h'), w, minimum, tombs)
    requires minimum <= Completion.NewestPeriod(occurredAt) && |tombs| == Completion.NewestPeriod(occurredAt) - minimum + 1
    ensures Completion.PeriodsEmpty(h', |h'| - 1, w, occurredAt, minimum, evidence)
  {
    forall i | 0 <= i < |evidence|
      ensures Completion.PeriodEmpty(h', |h'| - 1, w, occurredAt, minimum + i, evidence[i].0, evidence[i].1)
    {
      assert SeenIdleEmpty(h, w, occurredAt, minimum + i, tombs[i], evidence[i]);
    }
  }

  lemma CompleteRefines(h: History, w: Worker, command: Command, control: Control, now: nat, minimum: nat,
                        tombs: seq<Tombstone>, evidence: seq<(nat, nat)>)
    requires h != [] && now <= Last(h).clock
    requires SeenAll(h, w, command.occurredAt, minimum, tombs, evidence)
    requires minimum <= Completion.NewestPeriod(command.occurredAt)
    requires |tombs| == Completion.NewestPeriod(command.occurredAt) - minimum + 1
    ensures AlwaysRefines(h, CompleteGuard(w, command, control, minimum, tombs), Completing(w, now),
                          Step.Complete(Completion.CompleteCommand(w, now, minimum, evidence)))
  {
    var step := Step.Complete(Completion.CompleteCommand(w, now, minimum, evidence));
    var guard := CompleteGuard(w, command, control, minimum, tombs);
    forall h': History | h <= h' && h' != [] && Coherent(h', |h'| - 1) && guard(Last(h')) ensures Protocol.Enabled(h', |h'| - 1, step) {
      SeenPeriodsEmpty(h, h', w, command.occurredAt, minimum, tombs, evidence);
      assert Later(h', |h| - 1, |h'| - 1);
    }
  }

  lemma AllErased(h: History, steps: seq<Step>, w: Worker, occurredAt: nat, minimum: nat, tombs: seq<Tombstone>, evidence: seq<(nat, nat)>)
    requires Run(h, steps) && SeenAll(h, w, occurredAt, minimum, tombs, evidence)
    ensures forall period :: minimum <= period < minimum + |tombs| ==> Erased(Last(h), OwnPartition(w, period))
  {
    forall period | minimum <= period < minimum + |tombs| ensures Erased(Last(h), OwnPartition(w, period)) {
      var i := period - minimum;
      assert SeenIdleEmpty(h, w, occurredAt, minimum + i, tombs[i], evidence[i]);
      FencedLocatorsShrink(h, steps, evidence[i].0, evidence[i].1, OwnPartition(w, period));
      NoResurrection(h, steps, evidence[i].1, |h| - 1, OwnPartition(w, period));
    }
  }

  /** The evidence of a completion at this time. */
  predicate EvidencedAt(s: State, w: Worker, command: Command, now: nat) {
    var l := LedgerOf(s, w.account);
    && Evidenced(s, w, command)
    && if command.kind.AccountDeletion? then l.receipt == Some(Receipt(w.operation, now))
       else CommandOf(s, w) == Some(command.(completedAt := Some(now))) && l.audits[w.operation] == now
  }

  function EvidencedBy(w: Worker, command: Command, now: nat): State -> bool { s => EvidencedAt(s, w, command, now) }

  lemma CompletionEvidenced(w: Worker, command: Command, control: Control, minimum: nat, tombs: seq<Tombstone>, now: nat)
    ensures Ensures(CompleteGuard(w, command, control, minimum, tombs), Completing(w, now), EvidencedBy(w, command, now))
  {
  }

  // ---------------------------------------------------------------- the worker

  method Replay(store: Store, w: Worker, command: Command, minimum: nat, tombs: seq<Tombstone>, ghost evidence: seq<(nat, nat)>)
      returns (verdict: Verdict)
    requires store.Valid() && SeenAll(store.h, w, command.occurredAt, minimum, tombs, evidence)
    modifies store
    ensures store.Valid() && store.Continues() && store.own == old(store.own)
    ensures verdict.Proved? ==> verdict.already && Evidenced(store.state, w, command)
    ensures verdict.Proved? ==> forall period :: minimum <= period < minimum + |tombs| ==> Erased(store.state, OwnPartition(w, period))
  {
    var answer := store.Check(ReplayGuard(w, command, minimum, tombs));
    if answer.Failed? { return Unverified; }
    AllErased(store.h, store.steps, w, command.occurredAt, minimum, tombs, evidence);
    verdict := Proved(true);
  }

  /** No step, or one completion of the worker's command. */
  predicate CompletesOnce(before: seq<Step>, after: seq<Step>, w: Worker) {
    after == before || (|after| == |before| + 1 && before <= after && CompletesAt(after, |before|, w))
  }

  /** The mutating transaction, at most once. */
  method Mutate(store: Store, w: Worker, command: Command, control: Control, now: nat, minimum: nat, tombs: seq<Tombstone>,
                ghost evidence: seq<(nat, nat)>) returns (answer: Answer)
    requires store.Valid() && now <= store.state.clock
    requires SeenAll(store.h, w, command.occurredAt, minimum, tombs, evidence)
    requires minimum <= Completion.NewestPeriod(command.occurredAt)
    requires |tombs| == Completion.NewestPeriod(command.occurredAt) - minimum + 1
    modifies store
    ensures store.Valid() && store.Continues() && CompletesOnce(old(store.own), store.own, w)
    ensures answer.Committed? ==> store.steps != [] && CompletesAt(store.steps, |store.steps| - 1, w) && EvidencedAt(store.state, w, command, now)
  {
    CompleteRefines(store.h, w, command, control, now, minimum, tombs, evidence);
    CompletionEvidenced(w, command, control, minimum, tombs, now);
    answer := store.Commit(CompleteGuard(w, command, control, minimum, tombs), Completing(w, now), EvidencedBy(w, command, now),
                        Step.Complete(Completion.CompleteCommand(w, now, minimum, evidence)));
  }

  datatype Mode = Acknowledge | Verify | Fresh | Refuse

  /** What the stored command and receipt leave to do. */
  method Classify(store: Store, w: Worker, command: Command, replayOnly: bool) returns (mode: Mode)
    requires store.Valid()
    modifies store
    ensures store.Valid() && store.Continues() && store.own == old(store.own)
    ensures replayOnly ==> mode != Fresh
  {
    store.Interfere();
    var stored := CommandOf(store.state, w);
    if stored.None? { return Refuse; }
    var terminal := stored.value.completedAt.Some? && stored.value == command.(completedAt := stored.value.completedAt);
    if terminal && command.kind.AccountDeletion? { return Acknowledge; }
    if !terminal && stored.value != command { return Refuse; }
    store.Interfere();
    var receipt := LedgerOf(store.state, w.account).receipt;
    mode := if terminal || (command.kind.AccountDeletion? && receipt.Some?) then Verify
            else if replayOnly || receipt.Some? then Refuse
            else Fresh;
  }

  /** The open control row whose count agrees with the jobs. */
  method ReadControl(store: Store, w: Worker, command: Command) returns (control: Option<Control>)
    requires store.Valid()
    modifies store
    ensures store.Valid() && store.Continues() && store.own == old(store.own)
  {
    store.Interfere();
    var l := LedgerOf(store.state, w.account);
    if w.operation !in l.jobs || l.control.None? || l.control.value.sealed { return None; }
    if l.control.value.pendingJobs == 1 && l.jobs != {w.operation} { return None; }
    if command.kind.AccountDeletion? && l.control.value.pendingJobs != 1 { return None; }
    control := l.control;
  }

  /** Reads the job and the control row and dispatches the one mutation. Only a failed answer to it is
      ambiguous. */
  method CompleteFresh(store: Store, w: Worker, command: Command, now: nat, minimum: nat, tombs: seq<Tombstone>, ghost evidence: seq<(nat, nat)>)
      returns (verdict: Verdict, ambiguous: bool)
    requires store.Valid() && now <= store.state.clock
    requires SeenAll(store.h, w, command.occurredAt, minimum, tombs, evidence)
    requires minimum <= Completion.NewestPeriod(command.occurredAt)
    requires |tombs| == Completion.NewestPeriod(command.occurredAt) - minimum + 1
    modifies store
    ensures store.Valid() && store.Continues() && (verdict == Proved(false) || verdict.Unverified?)
    ensures CompletesOnce(old(store.own), store.own, w)
    ensures verdict.Proved? ==> !ambiguous && EvidencedAt(store.state, w, command, now)
    ensures verdict.Proved? ==> store.steps != [] && CompletesAt(store.steps, |store.steps| - 1, w)
    ensures verdict.Proved? ==> forall period :: minimum <= period < minimum + |tombs| ==> Erased(store.state, OwnPartition(w, period))
  {
    ghost var start := |store.h| - 1;
    var control := ReadControl(store, w, command);
    if control.None? { return Unverified, false; }
    RecomputeWorker.ClockRuns(store.h, store.steps, start);
    var answer := Mutate(store, w, command, control.value, now, minimum, tombs, evidence);
    if answer.Failed? { return Unverified, true; }
    AllErased(store.h, store.steps, w, command.occurredAt, minimum, tombs, evidence);
    verdict, ambiguous := Proved(false), false;
  }

  /** In every period not before the minimum that has begun by then, nothing is left. */
  ghost predicate AllPeriodsErased(s: State, w: Worker, minimum: nat, occurredAt: nat) {
    forall period: nat :: minimum <= period && period * PERIOD_SECONDS <= occurredAt ==> Erased(s, OwnPartition(w, period))
  }

  lemma PeriodsCovered(s: State, w: Worker, minimum: nat, count: nat, occurredAt: nat)
    requires minimum <= Completion.NewestPeriod(occurredAt) && count == Completion.NewestPeriod(occurredAt) - minimum + 1
    requires forall period :: minimum <= period < minimum + count ==> Erased(s, OwnPartition(w, period))
    ensures minimum * PERIOD_SECONDS <= occurredAt && AllPeriodsErased(s, w, minimum, occurredAt)
  {
    Completion.NewestHasBegun(occurredAt, minimum);
    forall period: nat | minimum <= period && period * PERIOD_SECONDS <= occurredAt ensures Erased(s, OwnPartition(w, period)) {
      Completion.NewestHasBegun(occurredAt, period);
    }
  }

  /** One proof of the command. A fresh proof may mutate, once; if the answer is lost it is followed
      by one replay, which commits no step: the recursion is at most one deep. */
  method Attempt(store: Store, w: Worker, command: Command, now: nat, minimum: nat, maxPeriods: nat, replayOnly: bool) returns (verdict: Verdict)
    requires store.Valid() && now <= store.state.clock && command.completedAt.None?
    modifies store
    ensures store.Valid() && store.Continues() && CompletesOnce(old(store.own), store.own, w)
    ensures verdict.Proved? ==> Evidenced(store.state, w, command)
    ensures verdict.Proved? ==> minimum * PERIOD_SECONDS <= command.occurredAt && AllPeriodsErased(store.state, w, minimum, command.occurredAt)
    ensures verdict == Proved(false) ==> store.steps != [] && CompletesAt(store.steps, |store.steps| - 1, w) && EvidencedAt(store.state, w, command, now)
    ensures replayOnly ==> verdict != Proved(false) && store.own == old(store.own)
    decreases !replayOnly
  {
    ghost var start := |store.h| - 1;
    var mode := Classify(store, w, command, replayOnly);
    if mode.Acknowledge? { return TerminalAcknowledged; }
    var newest := Completion.NewestPeriod(command.occurredAt);
    if mode.Refuse? || minimum > newest || newest - minimum + 1 > maxPeriods { return Unverified; }
    var tombs, ok, evidence := ReadPeriods(store, w, command.occurredAt, minimum, newest);
    if !ok { return Unverified; }
    if mode.Verify? {
      verdict := Replay(store, w, command, minimum, tombs, evidence);
      if verdict.Proved? { PeriodsCovered(store.state, w, minimum, |tombs|, command.occurredAt); }
      return;
    }
    RecomputeWorker.ClockRuns(store.h, store.steps, start);
    var ambiguous;
    verdict, ambiguous := CompleteFresh(store, w, command, now, minimum, tombs, evidence);
    if verdict.Proved? { PeriodsCovered(store.state, w, minimum, |tombs|, command.occurredAt); }
    if ambiguous {
      RecomputeWorker.ClockRuns(store.h, store.steps, start);
      verdict := Attempt(store, w, command, now, minimum, maxPeriods, true);
    }
  }
}
