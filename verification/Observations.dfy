/** How a worker's transaction refers to what the worker read: a history of table states in which
    every read is an index, so any interference may lie between two reads or before the commit. */
module Observations {
  import opened Basics
  import opened Candidate
  import opened CandidateSteps
  import opened Table

  type History = seq<State>

  const MAX_ACTIONS := 100

  /** A deletion worker acts for one command of one account. */
  datatype Worker = Worker(account: Account, operation: Operation)

  ghost predicate SoundAt(h: History, i: nat)
    requires i < |h|
  {
    Table.Inv(h[i])
  }

  ghost predicate Later(h: History, i: nat, j: nat)
    requires i < |h| && j < |h|
  {
    Table.Evolves(h[i], h[j])
  }

  /** Every state so far is sound and is a possible later state of every earlier one. */
  ghost predicate Coherent(h: History, k: nat) {
    && k < |h|
    && (forall i :: 0 <= i <= k ==> SoundAt(h, i))
    && (forall i, j :: 0 <= i <= j <= k ==> Later(h, i, j))
  }

  /** The command is still exactly pending and the account's campaign component is not sealed. */
  predicate CommandLive(s: State, w: Worker) {
    var l := LedgerOf(s, w.account);
    w.operation in l.commands && l.commands[w.operation].completedAt.None? && l.receipt.None?
  }

  predicate SeesSummary(h: History, r: nat, c: CandidateId) {
    r < |h| && c in h[r].cells && h[r].cells[c].summary.Some?
  }

  function SummaryAt(h: History, r: nat, c: CandidateId): Summary
    requires SeesSummary(h, r, c)
  {
    h[r].cells[c].summary.value
  }

  /** `version = :version AND attribute_not_exists(lifecycleState)` */
  predicate OpenAtVersion(s: State, c: CandidateId, version: nat) {
    c in s.cells && s.cells[c].summary.Some? && s.cells[c].summary.value.version == version && s.cells[c].summary.value.phase.Open?
  }

  predicate SummaryIs(s: State, c: CandidateId, seen: Summary) {
    c in s.cells && s.cells[c].summary == Some(seen)
  }

  /** The publisher compares the version and every lifecycle field. */
  predicate SameStamp(s: State, c: CandidateId, seen: Summary) {
    && c in s.cells && s.cells[c].summary.Some?
    && s.cells[c].summary.value.version == seen.version && s.cells[c].summary.value.phase == seen.phase
  }

  /** At this moment no repair of the candidate is outstanding: its summary is gone, or frozen, or was
      just recomputed, which is what takes the checkpoint from a candidate that keeps its summary. */
  ghost predicate RepairedAt(h: History, v: nat, c: CandidateId) {
    && v < |h| && c in h[v].cells && h[v].cells[c].checkpoint.None?
    && (h[v].cells[c].summary.Some? ==>
         || h[v].cells[c].summary.value.phase.Frozen?
         || (h[v].cells[c].summary.value.phase.Open?
             && v > 0 && c in h[v - 1].cells && h[v - 1].cells[c].checkpoint.Some?))
  }

  function OwnerOf(s: State, c: CandidateId, t: Token): Partition
    requires c in s.cells
  {
    Partition(s.cells[c].period, t)
  }

  /** The guards of a paired delete: the locator is exactly as observed, and the contribution is
      either gone already or the one the locator names. */
  predicate PairOwned(s: State, c: CandidateId, t: Token, expiresAt: nat) {
    && c in s.cells
    && var l := PartOf(s, OwnerOf(s, c, t)).locators;
    && CandidateKey(c) in l && l[CandidateKey(c)] == expiresAt
    && (t in s.cells[c].rows ==> s.cells[c].rows[t].expiresAt == expiresAt)
    && (t in s.cells[c].strays ==> s.cells[c].strays[t].period == s.cells[c].period && s.cells[c].strays[t].expiresAt == expiresAt)
  }

  /** The pair is owned with whatever deadline its locator carries now. */
  predicate LocatorOwned(s: State, c: CandidateId, t: Token) {
    && c in s.cells && CandidateKey(c) in PartOf(s, OwnerOf(s, c, t)).locators
    && PairOwned(s, c, t, PartOf(s, OwnerOf(s, c, t)).locators[CandidateKey(c)])
  }

  function WithoutRecords(e: Event): Event { e.(feature := false, clustered := None) }

  function Minimum(a: nat, b: nat): nat { if a <= b then a else b }

  /** The approved maximum lifetime of a contribution. */
  function Deadline(period: nat, now: nat, featureExpiry: nat, days: nat): nat {
    Minimum(Minimum(featureExpiry, now + days * 86400), Horizon(period))
  }

  /** A summary still carrying the version a worker saw, before publication, is the one it saw, and
      no contribution has changed since. */
  lemma VersionFence(h: History, k: nat, r: nat, u: nat, c: CandidateId)
    requires Coherent(h, k) && r <= u <= k && SeesSummary(h, r, c) && SeesSummary(h, k, c)
    requires SummaryAt(h, k, c).version == SummaryAt(h, r, c).version
    requires !SummaryAt(h, r, c).phase.Final() && !SummaryAt(h, k, c).phase.Final()
    ensures c in h[u].cells && h[k].cells[c].summary == h[r].cells[c].summary
    ensures h[u].cells[c].rows == h[k].cells[c].rows == h[r].cells[c].rows
  {
    assert Later(h, r, u) && Later(h, u, k);
    CandidateSteps.Fence(h[r].cells[c], h[u].cells[c], h[k].cells[c]);
  }

  /** A published or suppressed candidate whose partition was read empty stays empty. */
  lemma FinalStaysEmpty(h: History, k: nat, c: CandidateId, r: nat, u: nat)
    requires Coherent(h, k) && r <= u <= k && SeesSummary(h, r, c) && SeesSummary(h, k, c)
    requires SummaryAt(h, r, c).phase.Final() && SummaryAt(h, k, c) == SummaryAt(h, r, c)
    requires c in h[u].cells && h[u].cells[c].rows == map[]
    ensures h[k].cells[c].rows == map[]
  {
    assert Later(h, r, u) && Later(h, u, k);
    assert CandidateSteps.Evolves(h[r].cells[c], h[u].cells[c]) && CandidateSteps.Evolves(h[u].cells[c], h[k].cells[c]);
  }
}
