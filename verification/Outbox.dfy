/** Erasing observations through their locators: the event goes before the locator that finds it. */
module Outbox {
  import opened Basics
  import opened Paging

  type Id = nat

  const PAGE_SIZE := 100

  datatype Outcome = Blocked | Failed | Continuing | Complete(already: bool)

  class Outbox {
    /** The account's observations and the locators of its partition, keyed alike. The account is
        fenced: no producer adds to either any more. */
    var events: set<Id>
    var locators: set<Id>
    var progress: Option<Id>
    var receipt: bool

    /** No event has lost its locator; behind a continuation both are gone; the receipt covers all. */
    ghost predicate Valid()
      reads this
    {
      && events <= locators
      && (progress.Some? ==> forall i :: i in locators ==> i > progress.value)
      && (receipt ==> locators == {})
    }

    twostate predicate Continues()
      reads this
    {
      events <= old(events) && locators <= old(locators) && (old(receipt) ==> receipt)
    }

    constructor (ids: set<Id>)
      ensures Valid() && events == locators == ids
    {
      events, locators, progress, receipt := ids, ids, None, false;
    }

    /** Other invocations, concurrent or later. Callers rely on this contract alone. */
    method Interfere()
      requires Valid()
      modifies this
      ensures Valid() && Continues()
    {
    }

    /** Two separate deletes; a crash between them leaves the locator, which a retry finds again. */
    method DeletePair(i: Id) returns (ok: bool)
      requires Valid()
      modifies this
      ensures Valid() && Continues() && (ok ==> i !in locators && i !in events)
    {
      Interfere();
      if i in events {
        Interfere();
        if i !in events { return false; }
        events := events - {i};
      }
      Interfere();
      // The conditional delete fails when another invocation was first.
      if i !in locators { return false; }
      locators := locators - {i};
      ok := true;
    }

    method DeletePage(start: Option<Id>) returns (last: Option<Id>, ok: bool)
      requires Valid() && (start.Some? ==> forall i :: i in locators ==> i > start.value)
      modifies this
      ensures Valid() && Continues()
      ensures ok ==> if last.Some? then forall i :: i in locators ==> i > last.value else locators == {}
    {
      Interfere();
      var page;
      page, last := NextKeys(locators, start, PAGE_SIZE);
      ghost var found := locators;
      var done := 0;
      while done < |page|
        invariant Valid() && Continues() && locators <= found && done <= |page|
        invariant forall i :: 0 <= i < done ==> page[i] !in locators
      {
        ok := DeletePair(page[done]);
        if !ok { return; }
        done := done + 1;
      }
      ok := true;
      forall i | i in locators ensures last.Some? && i > last.value {
        assert Behind(i, start) && i !in page;
      }
    }

    /** One invocation of the drain. */
    method Call(coverageApproved: bool) returns (o: Outcome)
      requires Valid()
      modifies this
      ensures Valid() && Continues()
      ensures o.Complete? ==> receipt && locators == {} && events == {}
      ensures o.Continuing? ==> progress.Some?
    {
      Interfere();
      if receipt {
        progress := None;
        return Complete(true);
      }
      Interfere();
      var start := progress;
      var last, ok := DeletePage(start);
      if !ok { return Failed; }
      Interfere();
      if last.Some? {
        progress := last;
        return Continuing;
      }
      if !coverageApproved { return Blocked; }
      receipt := true;
      Interfere();
      if start.Some? { progress := None; }
      o := Complete(false);
    }
  }
}
