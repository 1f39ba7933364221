/** The checkpointed scan over pending deletion commands: it advances before it works, and calls a
    pass complete only if it was clean. */
module Reconciliation {
  import opened Basics
  import opened Paging

  /** Ledger rows in scan order. */
  type Key = nat

  datatype Result = Started | Succeeded | Skipped | Broken
  datatype Visit = Visit(key: Key, result: Result)

  /** A visit that neither failed nor was cut short. */
  predicate Clean(v: Visit) { v.result.Succeeded? || v.result.Skipped? }

  datatype Checkpoint = Checkpoint(start: Option<Key>, completedAt: Option<nat>, hadFailures: bool)

  /** What a completed pass visited, and the commands pending from its beginning to its end. */
  datatype Pass = Pass(visits: seq<Visit>, pending: set<Key>)

  /** The command was visited, and not skipped. */
  ghost predicate Visited(visits: seq<Visit>, k: Key) { exists i :: 0 <= i < |visits| && visits[i].key == k && !visits[i].result.Skipped? }

  ghost predicate SucceededFor(visits: seq<Visit>, k: Key) { exists i :: 0 <= i < |visits| && visits[i] == Visit(k, Succeeded) }

  ghost predicate AllClean(visits: seq<Visit>) { forall i :: 0 <= i < |visits| ==> Clean(visits[i]) }

  ghost predicate PassSound(p: Pass) {
    AllClean(p.visits) && forall k :: k in p.pending ==> SucceededFor(p.visits, k)
  }

  /** A clean visit that was not skipped succeeded. */
  lemma CleanSucceeded(visits: seq<Visit>, k: Key)
    requires AllClean(visits) && Visited(visits, k)
    ensures SucceededFor(visits, k)
  {
    var i :| 0 <= i < |visits| && visits[i].key == k && !visits[i].result.Skipped?;
    assert Clean(visits[i]);
  }

  lemma UncleanStays(before: seq<Visit>, after: seq<Visit>)
    requires before <= after
    ensures AllClean(after) ==> AllClean(before)
  {
  }

  predicate AtMost(k: Key, start: Option<Key>) { start.Some? && k <= start.value }

  class Reconciler {
    /** The durable checkpoint row, and the commands now pending in the ledger. */
    var checkpoint: Checkpoint
    var requested: set<Key>
    /** The visits since the scan last wrapped, the commands pending ever since, and the passes that
        were reported complete; the program does not keep them. */
    ghost var visits: seq<Visit>
    ghost var pending: set<Key>
    ghost var passes: seq<Pass>

    /** Holds between any two store calls, so also wherever an invocation is cut off. */
    ghost predicate Valid()
      reads this
    {
      && (!AllClean(visits) ==> checkpoint.hadFailures)
      && pending <= requested
      && (forall k :: k in pending && AtMost(k, checkpoint.start) ==> Visited(visits, k))
      && (checkpoint.start.None? ==> visits == [])
      && (forall i :: 0 <= i < |passes| ==> PassSound(passes[i]))
      && (checkpoint.completedAt.Some? <==> passes != [])
    }

    /** The completion time moves only with another sound pass. */
    twostate predicate Continues()
      reads this
    {
      old(passes) <= passes && (passes == old(passes) ==> checkpoint.completedAt == old(checkpoint.completedAt))
    }

    constructor (requested: set<Key>)
      ensures Valid() && passes == []
    {
      checkpoint := Checkpoint(None, None, false);
      this.requested, visits, pending, passes := requested, [], requested, [];
    }

    /** Commands arrive and are completed elsewhere; nobody else writes the checkpoint. */
    method Interfere()
      requires Valid()
      modifies this`requested, this`pending
      ensures Valid() && pending <= old(pending)
    {
    }

    /** The commands found behind a key, in scan order, and where the scan stopped. Rows that are not
        pending commands are scanned but not returned, so a page may be empty and still go on. */
    method Scan(start: Option<Key>) returns (page: seq<Key>, last: Option<Key>)
      ensures forall i :: 0 <= i < |page| ==> page[i] in requested && Behind(page[i], start) && !(last.Some? && page[i] > last.value)
      ensures forall i, j :: 0 <= i < j < |page| ==> page[i] < page[j]
      ensures forall k :: k in requested && Behind(k, start) ==> k in page || (last.Some? && k > last.value)
      ensures last.Some? ==> Behind(last.value, start)
    {
      page, last := NextKeys(requested, start, 25);
    }

    /** The checkpoint is written past the command before any work on it, marked as failed. */
    method Begin(k: Key, completedAt: Option<nat>)
      requires Valid() && completedAt == checkpoint.completedAt && Behind(k, checkpoint.start)
      requires forall p :: p in pending && Behind(p, checkpoint.start) ==> p >= k
      modifies this`checkpoint, this`visits
      ensures Valid() && checkpoint == Checkpoint(Some(k), completedAt, true)
      ensures visits == old(visits) + [Visit(k, Started)]
    {
      var before := visits;
      checkpoint := Checkpoint(Some(k), completedAt, true);
      visits := visits + [Visit(k, Started)];
      forall p | p in pending && AtMost(p, checkpoint.start) ensures Visited(visits, p) {
        if p == k {
          assert visits[|before|].key == k;
        } else {
          assert Visited(before, p);
          var i :| 0 <= i < |before| && before[i].key == p && !before[i].result.Skipped?;
          assert visits[i].key == p;
        }
      }
    }

    /** The result of the work on the command begun last; only a command no longer pending is skipped. */
    ghost method Record(result: Result)
      requires Valid() && visits != [] && checkpoint.hadFailures
      requires result.Skipped? ==> visits[|visits| - 1].key !in pending
      modifies this`visits
      ensures Valid() && visits == old(visits)[|old(visits)| - 1 := Visit(old(visits)[|old(visits)| - 1].key, result)]
    {
      var before := visits;
      visits := visits[|visits| - 1 := Visit(visits[|visits| - 1].key, result)];
      forall p | p in pending && AtMost(p, checkpoint.start) ensures Visited(visits, p) {
        assert Visited(before, p);
        var i :| 0 <= i < |before| && before[i].key == p && !before[i].result.Skipped?;
        assert visits[i].key == p;
      }
    }

    /** Works on one command. `failed` says what the invocation remembers about this pass; it is
        never less than what was seen. */
    method Attend(k: Key, completedAt: Option<nat>, failed: bool) returns (nowFailed: bool, cut: bool)
      requires Valid() && completedAt == checkpoint.completedAt && Behind(k, checkpoint.start) && (!AllClean(visits) ==> failed)
      requires forall p :: p in pending && Behind(p, checkpoint.start) ==> p >= k
      modifies this
      ensures Valid() && passes == old(passes) && checkpoint.completedAt == old(checkpoint.completedAt)
      ensures checkpoint.start == Some(k) && pending <= old(pending) && visits != [] && visits[|visits| - 1].key == k
      ensures !cut ==> (!AllClean(visits) ==> nowFailed) && (failed ==> nowFailed) && (nowFailed ==> failed || !AllClean(visits))
      ensures !cut ==> old(visits) <= visits
    {
      Begin(k, completedAt);
      assert AllClean(old(visits)) || failed;
      Interfere();
      nowFailed, cut := failed, true;
      if * { return; }
      cut := false;
      var completed: bool := *;
      if k !in requested && completed {
        // The stored command is completed by now: the marker stays until the next write.
        Record(Skipped);
      } else if * {
        Record(Broken);
        assert !Clean(visits[|visits| - 1]);
        nowFailed := true;
        checkpoint := Checkpoint(Some(k), completedAt, true);
      } else {
        Record(Succeeded);
        checkpoint := Checkpoint(Some(k), completedAt, failed);
      }
    }

    /** Nothing still pending lies behind the checkpoint and before the rest of the page. */
    ghost predicate Ahead(page: seq<Key>, i: nat, last: Option<Key>)
      reads this
    {
      forall p :: p in pending && Behind(p, checkpoint.start) ==>
        (exists j :: i <= j < |page| && page[j] == p) || (last.Some? && p > last.value)
    }

    /** Works on the commands of one page until the budget ends. */
    method AttendPage(page: seq<Key>, last: Option<Key>, completedAt: Option<nat>, hadFailures: bool, budget: nat)
        returns (failed: bool, attempted: nat, truncated: bool, cut: bool)
      requires Valid() && completedAt == checkpoint.completedAt && (!AllClean(visits) ==> hadFailures)
      requires forall i, j :: 0 <= i < j < |page| ==> page[i] < page[j]
      requires forall i :: 0 <= i < |page| ==> Behind(page[i], checkpoint.start) && !(last.Some? && page[i] > last.value)
      requires Ahead(page, 0, last)
      modifies this
      ensures Valid() && passes == old(passes) && checkpoint.completedAt == old(checkpoint.completedAt) && attempted <= budget
      ensures !cut ==> (!AllClean(visits) ==> failed) && (hadFailures ==> failed) && (failed ==> hadFailures || !AllClean(visits))
      ensures !cut ==> old(visits) <= visits
      ensures !cut && !truncated ==> Ahead(page, |page|, last)
      ensures !cut && !truncated ==> checkpoint.start == (if page == [] then old(checkpoint.start) else Some(page[|page| - 1]))
    {
      failed, attempted, truncated, cut := hadFailures, 0, false, false;
      while attempted < |page|
        invariant Valid() && passes == old(passes) && checkpoint.completedAt == old(checkpoint.completedAt)
        invariant attempted <= |page| && attempted <= budget && (!AllClean(visits) ==> failed) && (hadFailures ==> failed)
        invariant (failed ==> hadFailures || !AllClean(visits)) && old(visits) <= visits
        invariant checkpoint.start == (if attempted == 0 then old(checkpoint.start) else Some(page[attempted - 1]))
        invariant Ahead(page, attempted, last)
      {
        if attempted >= budget { return failed, attempted, true, false; }
        ghost var before := visits;
        // Too little time left.
        if * { return failed, attempted, true, false; }
        failed, cut := Attend(page[attempted], completedAt, failed);
        attempted := attempted + 1;
        if cut { return; }
        UncleanStays(before, visits);
      }
    }

    /** The checkpoint behind a whole page. At the end of the scan it starts over, and reports the
        pass complete if it saw no failure. */
    method SavePage(page: seq<Key>, last: Option<Key>, completedAt: Option<nat>, failed: bool, now: nat) returns (clean: bool)
      requires Valid() && completedAt == checkpoint.completedAt && (!AllClean(visits) ==> failed)
      requires Ahead(page, |page|, last) && (last.Some? ==> Behind(last.value, checkpoint.start) || last == checkpoint.start)
      modifies this`checkpoint, this`visits, this`pending, this`passes
      ensures Valid() && Continues()
      ensures (clean <==> last.None? && !failed) && (!clean ==> passes == old(passes))
      ensures clean ==> |passes| == |old(passes)| + 1 && passes[|passes| - 1] == Pass(old(visits), old(pending)) && checkpoint.completedAt == Some(now)
      ensures last.Some? ==> visits == old(visits) && passes == old(passes) && checkpoint == Checkpoint(last, completedAt, failed)
      ensures last.None? ==> visits == [] && checkpoint.start.None? && !checkpoint.hadFailures
    {
      clean := last.None? && !failed;
      if clean {
        forall k | k in pending ensures SucceededFor(visits, k) { CleanSucceeded(visits, k); }
        passes := passes + [Pass(visits, pending)];
      }
      checkpoint := Checkpoint(last, if clean then Some(now) else completedAt, last.Some? && failed);
      if last.None? { visits, pending := [], requested; }
    }

    /** Scans, works through and saves one page; `seen` are the visits since the scan began. */
    method ReconcilePage(completedAt: Option<nat>, hadFailures: bool, budget: nat, now: nat)
        returns (failed: bool, attempted: nat, truncated: bool, cut: bool, wrapped: bool, clean: bool, ghost seen: seq<Visit>)
      requires Valid() && completedAt == checkpoint.completedAt && (!AllClean(visits) ==> hadFailures)
      modifies this
      ensures Valid() && Continues() && attempted <= budget && old(visits) <= seen
      ensures !wrapped ==> !clean && passes == old(passes) && checkpoint.completedAt == old(checkpoint.completedAt)
      ensures !cut && !truncated ==> (failed <==> hadFailures || !AllClean(seen))
      ensures wrapped ==> !cut && !truncated && (clean <==> !failed) && visits == [] && checkpoint.start.None? && !checkpoint.hadFailures
      ensures !wrapped && !cut && !truncated ==> visits == seen
      ensures clean ==> |passes| == |old(passes)| + 1 && passes[|passes| - 1].visits == seen && checkpoint.completedAt == Some(now)
      ensures !clean ==> passes == old(passes)
    {
      wrapped, clean, seen := false, false, visits;
      Interfere();
      var page, last := Scan(checkpoint.start);
      failed, attempted, truncated, cut := AttendPage(page, last, completedAt, hadFailures, budget);
      if cut || truncated { return; }
      seen := visits;
      UncleanStays(old(visits), visits);
      clean := SavePage(page, last, completedAt, failed, now);
      wrapped := last.None?;
    }

    /** One bounded invocation. However passes are split over invocations, and wherever one is cut
        off, a pass is reported complete only if no visit in it failed, and every command pending
        throughout it was visited and succeeded; and an invocation that comes to the end of the scan reports
        it exactly when nothing has failed since the scan began, in `seen` or, by the mark it found, before. */
    method Reconcile(maxPages: nat, maxCommands: nat, now: nat)
        returns (completedPass: bool, truncated: bool, cut: bool, ghost seen: seq<Visit>)
      requires Valid() && 1 <= maxCommands <= 10
      modifies this
      ensures Valid() && Continues()
      ensures completedPass ==> |passes| == |old(passes)| + 1 && checkpoint.completedAt == Some(now)
      ensures !completedPass ==> passes == old(passes)
      ensures maxPages > 0 && !truncated && !cut ==> (completedPass <==> !old(checkpoint.hadFailures) && AllClean(seen))
      ensures maxPages > 0 && !truncated && !cut ==> old(visits) <= seen && (completedPass ==> passes[|passes| - 1].visits == seen)
      ensures maxPages > 0 && !truncated && !cut ==> checkpoint.start.None? && visits == [] && !checkpoint.hadFailures
    {
      completedPass, truncated, cut, seen := false, false, false, visits;
      Interfere();
      var completedAt, failed := checkpoint.completedAt, checkpoint.hadFailures;
      var attempted, pages := 0, 0;
      while pages < maxPages
        invariant Valid() && passes == old(passes) && checkpoint.completedAt == old(checkpoint.completedAt) == completedAt
        invariant (!AllClean(visits) ==> failed) && old(visits) <= visits
        invariant (old(checkpoint.hadFailures) ==> failed) && (failed ==> old(checkpoint.hadFailures) || !AllClean(visits))
        invariant attempted <= maxCommands && !completedPass && !cut && pages <= maxPages && (pages > 0 && pages == maxPages ==> truncated)
        decreases maxPages - pages
      {
        if attempted >= maxCommands { return false, true, false, visits; }
        if * { return false, true, false, visits; }
        ghost var before := visits;
        var more, wrapped;
        failed, more, truncated, cut, wrapped, completedPass, seen := ReconcilePage(completedAt, failed, maxCommands - attempted, now);
        UncleanStays(before, seen);
        if cut || truncated || wrapped { return; }
        attempted, pages := attempted + more, pages + 1;
        truncated := pages == maxPages;
      }
    }
  }
}
