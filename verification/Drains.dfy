/** The resumable drains of an account's partitions: page by page, each page's work done before the
    continuation behind it is saved, and a receipt only after the last page of the last family. */
module Drains {
  import opened Basics
  import opened Minimization
  import opened Paging

  type Key = nat

  datatype Component =
    | SessionRevocation | DeviceBindings | DeviceRecovery | HistoryStore | AnalysisAbuse
    | Campaign | CampaignOutbox | Entitlements | V1Authority | PlayTokens | UserProfile

  const PREREQUISITES := {SessionRevocation, DeviceBindings, DeviceRecovery, HistoryStore, AnalysisAbuse,
                          Campaign, CampaignOutbox, Entitlements, V1Authority, PlayTokens}

  const PAGE_SIZE := 100
  const ANALYSIS_FAMILIES := 4
  const CONSUMPTION := 3

  datatype Progress = Progress(family: nat, start: Option<Key>, legacySeen: bool)

  datatype Policy = Policy(consumption: bool, dedupe: bool, legacy: bool, profile: bool, demographic: bool)

  datatype Outcome = Crashed | Failed | Blocked | Continuing(done: nat) | Complete(already: bool)

  type Rows = map<Key, Record>

  function Families(c: Component): nat { if c.AnalysisAbuse? then ANALYSIS_FAMILIES else 1 }

  /** Everything but recovery evidence, analysis requests and consent audits is erased whole. */
  function TreatIn(c: Component, family: nat, r: Record, requestedAt: nat, now: nat): Treatment {
    if c.DeviceBindings? || (c.AnalysisAbuse? && family != 0) then Erase else Treat(r, requestedAt, now)
  }

  predicate DoneIn(c: Component, family: nat, r: Record, requestedAt: nat) {
    !(c.DeviceBindings? || (c.AnalysisAbuse? && family != 0)) && Minimal(r, requestedAt)
  }

  /** What a row may have become: it is untouched, or finished, identifying the same thing, needed just as
      long and expiring no later. */
  predicate Became(c: Component, family: nat, requestedAt: nat, r: Record, m: Record) {
    m == r || (DoneIn(c, family, m, requestedAt) && SameIdentity(r, m)
               && Due(m, requestedAt) == Due(r, requestedAt) && Expiry(m) <= Expiry(r))
  }

  /** A row may go only where rows are erased whole, or when it is disposable or not needed any more. A consent
      audit never goes, nor does a row that cannot be read. */
  predicate MayGo(c: Component, family: nat, requestedAt: nat, r: Record, clock: nat) {
    || c.DeviceBindings? || (c.AnalysisAbuse? && family != 0) || r.Disposable?
    || ((r.RecoveryEvidence? || r.Request?) && Due(r, requestedAt) <= clock)
  }

  lemma ErasedMayGo(c: Component, family: nat, requestedAt: nat, r: Record, current: Record, now: nat, clock: nat)
    requires TreatIn(c, family, r, requestedAt, now).Erase? && now <= clock && Became(c, family, requestedAt, r, current)
    ensures MayGo(c, family, requestedAt, current, clock)
  {
    KeptExactly(r, requestedAt, now);
  }

  /** The condition of a replacement. */
  predicate Unreplaced(current: Record, r: Record) {
    match (current, r)
    case (Request(_, p, _, _, _), Request(_, q, _, _, _)) => p == q && current.expiresAt == r.expiresAt
    case (RecoveryEvidence(_, o, _, _, _), RecoveryEvidence(_, p, _, _, _)) => o == p && current.expiresAt == r.expiresAt
    case _ => false
  }

  /** Replacing a row that meets the condition by the retained form of the row that was read. */
  lemma RetainDone(c: Component, family: nat, r: Record, requestedAt: nat, now: nat, current: Record)
    requires TreatIn(c, family, r, requestedAt, now).Retain?
    ensures DoneIn(c, family, TreatIn(c, family, r, requestedAt, now).record, requestedAt)
    ensures Became(c, family, requestedAt, r, current) && Unreplaced(current, r) ==>
              Became(c, family, requestedAt, current, TreatIn(c, family, r, requestedAt, now).record)
  {
    RetainedIsMinimal(r, requestedAt, now);
    KeptExactly(r, requestedAt, now);
  }

  /** Rows that may go have disappeared, and rows have become minimal; no row is new. */
  ghost predicate PartsLater(c: Component, requestedAt: nat, before: seq<Rows>, after: seq<Rows>, clock: nat) {
    && |before| == |after|
    && (forall f, k :: 0 <= f < |after| && k in after[f] ==> k in before[f] && Became(c, f, requestedAt, before[f][k], after[f][k]))
    && (forall f, k :: 0 <= f < |after| && k in before[f] && k !in after[f] ==> MayGo(c, f, requestedAt, before[f][k], clock))
  }

  lemma PartsLaterTransitive(c: Component, requestedAt: nat, first: seq<Rows>, second: seq<Rows>, third: seq<Rows>, reached: nat, clock: nat)
    requires PartsLater(c, requestedAt, first, second, reached) && PartsLater(c, requestedAt, second, third, clock) && reached <= clock
    ensures PartsLater(c, requestedAt, first, third, clock)
  {
  }

  function Put(rows: Rows, k: Key, r: Record): Rows { rows[k := r] }

  class Drain {
    const component: Component
    const requestedAt: nat
    /** The account's partitions, one for each family; the account is fenced, so no producer adds to
        them any more. */
    var parts: seq<Rows>
    var progress: Option<Progress>
    var receipts: set<Component>
    /** The time; every reading of the clock is of an earlier one. */
    ghost var clock: nat

    /** Everything a saved continuation has behind it is erased or minimized. */
    ghost predicate Drained(family: nat, start: Option<Key>)
      reads this
      requires |parts| == Families(component) && family <= |parts|
    {
      && (forall f, k :: 0 <= f < family && k in parts[f] ==> DoneIn(component, f, parts[f][k], requestedAt))
      && (family < |parts| && start.Some? ==>
           forall k :: k in parts[family] && k <= start.value ==> DoneIn(component, family, parts[family][k], requestedAt))
    }

    /** A continuation covers only finished rows, the component's receipt the whole of its families,
        and the profile's receipt comes after every prerequisite's. */
    ghost predicate Valid()
      reads this
    {
      && |parts| == Families(component)
      && (progress.Some? ==> progress.value.family < |parts| && Drained(progress.value.family, progress.value.start))
      && (component in receipts ==> Drained(|parts|, None))
      && (UserProfile in receipts ==> PREREQUISITES <= receipts)
    }

    /** What other invocations of the drains can have done: rows that may go disappear, and rows become
        minimal; a row that is kept still identifies the same thing, is needed just as long and expires no
        later. */
    twostate predicate Continues()
      reads this
    {
      && old(receipts) <= receipts && old(clock) <= clock
      && PartsLater(component, requestedAt, old(parts), parts, clock)
    }

    constructor (component: Component, requestedAt: nat, parts: seq<Rows>)
      requires |parts| == Families(component)
      ensures Valid() && this.parts == parts && receipts == {} && progress.None?
    {
      this.component, this.requestedAt, this.parts, this.progress, this.receipts := component, requestedAt, parts, None, {};
    }

    /** Any other invocation, concurrent or later, of this or another component's drain. Callers rely
        on this contract alone. */
    method Interfere()
      requires Valid()
      modifies this
      ensures Valid() && Continues()
    {
    }

    /** The row is as it was read, or has been finished or erased since. */
    ghost predicate AsRead(family: nat, k: Key, r: Record)
      reads this
      requires family < |parts|
    {
      k in parts[family] ==> Became(component, family, requestedAt, r, parts[family][k])
    }

    ghost predicate Finished(family: nat, k: Key)
      reads this
      requires family < |parts|
    {
      k in parts[family] ==> DoneIn(component, family, parts[family][k], requestedAt)
    }

    /** Erases one row, or replaces it if it still is what was read. Recovery evidence is put again even
        where it is minimal already. */
    method TreatRow(family: nat, k: Key, r: Record, now: nat) returns (ok: bool)
      requires Valid() && family < |parts| && AsRead(family, k, r) && now <= clock
      modifies this
      ensures Valid() && Continues() && (ok ==> Finished(family, k))
    {
      Interfere();
      ghost var before, reached := parts, clock;
      match TreatIn(component, family, r, requestedAt, now)
      case Refuse => ok := false;
      case Erase =>
        EraseRow(family, k, r, now);
        PartsLaterTransitive(component, requestedAt, old(parts), before, parts, reached, clock);
        ok := true;
      case Retain(m) =>
        if m == r && !r.RecoveryEvidence? { return true; }
        ok := k in parts[family] && Unreplaced(parts[family][k], r);
        if ok {
          RetainDone(component, family, r, requestedAt, now, parts[family][k]);
          Replace(family, k, m);
          PartsLaterTransitive(component, requestedAt, old(parts), before, parts, reached, clock);
        }
    }

    /** A delete without a condition; the row may be gone already, or finished. */
    method EraseRow(family: nat, k: Key, r: Record, now: nat)
      requires Valid() && family < |parts| && AsRead(family, k, r) && now <= clock
      requires TreatIn(component, family, r, requestedAt, now).Erase?
      modifies this
      ensures Valid() && Continues() && Finished(family, k)
    {
      if k in parts[family] { ErasedMayGo(component, family, requestedAt, r, parts[family][k], now, clock); }
      parts := parts[family := parts[family] - {k}];
    }

    method Replace(family: nat, k: Key, m: Record)
      requires Valid() && family < |parts| && k in parts[family]
      requires DoneIn(component, family, m, requestedAt) && Became(component, family, requestedAt, parts[family][k], m)
      modifies this
      ensures Valid() && Continues() && Finished(family, k)
      ensures parts == old(parts)[family := Put(old(parts)[family], k, m)]
      ensures receipts == old(receipts) && progress == old(progress) && clock == old(clock)
    {
      parts := parts[family := Put(parts[family], k, m)];
    }

    /** The request's retention cannot be told from the record. */
    predicate Unverified(family: nat, r: Record, now: nat) {
      component.AnalysisAbuse? && family == 0 && r.Request? && r.expiresAt > now && ClassOf(r, requestedAt).UnverifiedLegacy?
    }

    /** Works through one page; only when every row of it is finished may a continuation be saved. */
    method DrainPage(family: nat, start: Option<Key>, now: nat) returns (last: Option<Key>, ok: bool, done: nat, legacy: bool)
      requires Valid() && family < |parts| && Drained(family, start) && now <= clock
      modifies this
      ensures Valid() && Continues() && |parts| == Families(component)
      ensures ok ==> if last.Some? then Drained(family, last) else Drained(family + 1, None)
      ensures ok && last.Some? && start.Some? ==> last.value > start.value
    {
      Interfere();
      var rows := parts[family];
      var page;
      page, last := NextKeys(rows.Keys, start, PAGE_SIZE);
      ghost var before, reached := parts, clock;
      ok, done, legacy := TreatPage(family, start, rows, page, now);
      PartsLaterTransitive(component, requestedAt, old(parts), before, parts, reached, clock);
      if ok { PageFinished(family, start, rows, page, last); }
    }

    /** The rows of one page, one after the other. */
    method TreatPage(family: nat, start: Option<Key>, rows: Rows, page: seq<Key>, now: nat) returns (ok: bool, done: nat, legacy: bool)
      requires Valid() && family < |parts| && PartlyDone(family, start, rows, page, 0) && now <= clock
      modifies this
      ensures Valid() && Continues() && |parts| == Families(component) && family < |parts|
      ensures ok ==> PartlyDone(family, start, rows, page, |page|)
    {
      ok, done, legacy := true, 0, false;
      while done < |page|
        invariant Valid() && Continues() && |parts| == Families(component) && family < |parts| && ok && done <= |page|
        invariant PartlyDone(family, start, rows, page, done) && now <= clock
      {
        ghost var before, reached := parts, clock;
        ok := TreatNth(family, start, rows, page, done, now);
        PartsLaterTransitive(component, requestedAt, old(parts), before, parts, reached, clock);
        if !ok { return; }
        legacy := legacy || Unverified(family, rows[page[done]], now);
        done := done + 1;
      }
    }

    /** Of a page read from `rows`, the first `done` rows are finished and the others are as read. */
    ghost predicate PartlyDone(family: nat, start: Option<Key>, rows: Rows, page: seq<Key>, done: nat)
      reads this
      requires |parts| == Families(component) && family < |parts|
    {
      && Drained(family, start) && done <= |page|
      && (forall k :: k in parts[family] ==> k in rows)
      && (forall i :: 0 <= i < |page| ==> page[i] in rows)
      && (forall i :: 0 <= i < done ==> Finished(family, page[i]))
      && (forall i :: done <= i < |page| ==> AsRead(family, page[i], rows[page[i]]))
    }

    method TreatNth(family: nat, start: Option<Key>, rows: Rows, page: seq<Key>, done: nat, now: nat) returns (ok: bool)
      requires Valid() && family < |parts| && done < |page| && PartlyDone(family, start, rows, page, done) && now <= clock
      modifies this
      ensures Valid() && Continues() && |parts| == Families(component)
      ensures ok ==> PartlyDone(family, start, rows, page, done + 1)
    {
      ok := TreatRow(family, page[done], rows[page[done]], now);
    }

    lemma PageFinished(family: nat, start: Option<Key>, rows: Rows, page: seq<Key>, last: Option<Key>)
      requires |parts| == Families(component) && family < |parts|
      requires IsPageOf(rows.Keys, start, page, last, PAGE_SIZE) && PartlyDone(family, start, rows, page, |page|)
      ensures if last.Some? then Drained(family, last) else Drained(family + 1, None)
    {
      forall k | k in parts[family] && (last.None? || k <= last.value) ensures DoneIn(component, family, parts[family][k], requestedAt) {
        if Paging.Behind(k, start) {
          assert k in page;
          var i :| 0 <= i < |page| && page[i] == k;
          assert Finished(family, page[i]);
        }
      }
    }

    /** Reads the receipt of every component the profile's drain waits for. */
    method ReadPrerequisites() returns (ok: bool)
      requires Valid()
      modifies this
      ensures Valid() && Continues() && (ok ==> PREREQUISITES <= receipts)
    {
      var left, missing := PREREQUISITES, {};
      while left != {}
        invariant Valid() && Continues() && left <= PREREQUISITES && PREREQUISITES - left - missing <= receipts
        decreases left
      {
        var c :| c in left;
        ghost var before, reached := parts, clock;
        Interfere();
        PartsLaterTransitive(component, requestedAt, old(parts), before, parts, reached, clock);
        if c !in receipts { missing := missing + {c}; }
        left := left - {c};
      }
      ok := missing == {};
      assert ok ==> PREREQUISITES - left - missing == PREREQUISITES;
    }

    /** The receipt is put only where none is; an existing one says the same. */
    method Conclude(started: bool) returns (o: Outcome)
      requires Valid() && Drained(|parts|, None) && (component.UserProfile? ==> PREREQUISITES <= receipts)
      modifies this
      ensures Valid() && Continues() && (o.Complete? ==> component in receipts) && (o.Complete? || o.Crashed?)
    {
      Interfere();
      receipts := receipts + {component};
      if * { return Crashed; }
      if started { progress := None; }
      o := Complete(false);
    }

    /** One invocation. It may crash between any two store calls and run beside any others; what it
        leaves always satisfies `Valid`. */
    method Call(now: nat, policy: Policy) returns (o: Outcome)
      requires Valid() && now <= clock
      modifies this
      ensures Valid() && Continues()
      ensures o.Complete? ==> component in receipts && Drained(|parts|, None)
      ensures o.Continuing? ==> progress.Some?
    {
      Interfere();
      if component in receipts {
        if * { return Crashed; }
        progress := None;
        return Complete(true);
      }
      if component.UserProfile? {
        if !policy.profile { return Blocked; }
        ghost var before, reached := parts, clock;
        var ready := ReadPrerequisites();
        PartsLaterTransitive(component, requestedAt, old(parts), before, parts, reached, clock);
        if !ready || !policy.demographic { return Blocked; }
      }
      ghost var before, reached := parts, clock;
      o := WorkThrough(now, policy);
      PartsLaterTransitive(component, requestedAt, old(parts), before, parts, reached, clock);
    }

    /** Reads the continuation and works through one page. */
    method WorkThrough(now: nat, policy: Policy) returns (o: Outcome)
      requires Valid() && (component.UserProfile? ==> PREREQUISITES <= receipts) && now <= clock
      modifies this
      ensures Valid() && Continues()
      ensures o.Complete? ==> component in receipts && Drained(|parts|, None)
      ensures o.Continuing? ==> progress.Some?
    {
      Interfere();
      var started := progress.Some?;
      var from := if started then progress.value else Progress(0, None, false);
      if component.AnalysisAbuse? && from.family == CONSUMPTION && !policy.consumption { return Blocked; }
      ghost var before, reached := parts, clock;
      o := PageAndSave(from, started, now, policy);
      PartsLaterTransitive(component, requestedAt, old(parts), before, parts, reached, clock);
    }

    method PageAndSave(from: Progress, started: bool, now: nat, policy: Policy) returns (o: Outcome)
      requires Valid() && from.family < |parts| && Drained(from.family, from.start) && (component.UserProfile? ==> PREREQUISITES <= receipts) && now <= clock
      modifies this
      ensures Valid() && Continues()
      ensures o.Complete? ==> component in receipts && Drained(|parts|, None)
      ensures o.Continuing? ==> progress.Some?
    {
      var last, ok, done, legacy := DrainPage(from.family, from.start, now);
      if !ok { return Failed; }
      ghost var before, reached := parts, clock;
      o := Save(from, last, done, from.legacySeen || legacy, policy, started);
      PartsLaterTransitive(component, requestedAt, old(parts), before, parts, reached, clock);
    }

    /** Saves the continuation behind a finished page, or concludes after the last family. */
    method Save(from: Progress, last: Option<Key>, done: nat, legacy: bool, policy: Policy, started: bool) returns (o: Outcome)
      requires Valid() && from.family < |parts|
      requires if last.Some? then Drained(from.family, last) else Drained(from.family + 1, None)
      requires component.UserProfile? ==> PREREQUISITES <= receipts
      modifies this
      ensures Valid() && Continues()
      ensures o.Complete? ==> component in receipts && Drained(|parts|, None)
      ensures o.Continuing? ==> progress.Some?
    {
      Interfere();
      var next := if last.Some? then Progress(from.family, last, legacy) else Progress(from.family + 1, None, legacy);
      if next.family < |parts| {
        progress := Some(next);
        return Continuing(done);
      }
      if component.AnalysisAbuse? && ((legacy && !policy.legacy) || !policy.dedupe) { return Blocked; }
      ghost var before, reached := parts, clock;
      o := Conclude(started);
      PartsLaterTransitive(component, requestedAt, old(parts), before, parts, reached, clock);
    }
  }
}