/** Ordered, bounded pages over a set of keys. */
module Paging {
  import opened Basics

  predicate Behind(k: nat, cursor: Option<nat>) { cursor.None? || k > cursor.value }

  /** An ordered read of at most `limit` keys behind a cursor. A continuation is the last key read;
      without one the end was reached. */
  ghost predicate IsPageOf(keys: set<nat>, cursor: Option<nat>, page: seq<nat>, last: Option<nat>, limit: nat) {
    && |page| <= limit
    && (forall i, j :: 0 <= i < j < |page| ==> page[i] < page[j])
    && (forall i :: 0 <= i < |page| ==> page[i] in keys && Behind(page[i], cursor))
    && (forall k :: k in keys && Behind(k, cursor) ==> k in page || (last.Some? && k > last.value))
    && (last.Some? ==> page != [] && last.value == page[|page| - 1])
  }

  function KeysBehind(keys: set<nat>, cursor: Option<nat>): set<nat> {
    set k | k in keys && Behind(k, cursor)
  }

  ghost predicate PageSoFar(keys: set<nat>, cursor: Option<nat>, page: seq<nat>, left: set<nat>) {
    && (forall i, j :: 0 <= i < j < |page| ==> page[i] < page[j])
    && (forall i :: 0 <= i < |page| ==> page[i] in keys && Behind(page[i], cursor))
    && (forall k :: k in keys && Behind(k, cursor) ==> k in page || k in left)
    && (forall k :: k in left ==> k in keys && Behind(k, cursor) && (page == [] || page[|page| - 1] < k))
  }

  lemma PageGrows(keys: set<nat>, cursor: Option<nat>, page: seq<nat>, left: set<nat>, k: nat)
    requires PageSoFar(keys, cursor, page, left) && IsLeast(left, k)
    ensures PageSoFar(keys, cursor, page + [k], left - {k})
  {
  }

  method NextKeys(keys: set<nat>, cursor: Option<nat>, limit: nat) returns (page: seq<nat>, last: Option<nat>)
    requires limit >= 1
    ensures IsPageOf(keys, cursor, page, last, limit) && (last.Some? <==> |page| == limit)
  {
    page := [];
    var left := KeysBehind(keys, cursor);
    while |page| < limit && left != {}
      invariant |page| <= limit && PageSoFar(keys, cursor, page, left)
      decreases left
    {
      ghost var least := LeastExists(left);
      var k :| k in left && IsLeast(left, k);
      PageGrows(keys, cursor, page, left, k);
      page, left := page + [k], left - {k};
    }
    last := if |page| == limit then Some(page[limit - 1]) else None;
  }

  lemma PagePrepends(keys: set<nat>, cursor: Option<nat>, k: nat, rest: seq<nat>, last: Option<nat>, limit: nat)
    requires limit >= 1 && k in keys && Behind(k, cursor) && IsPageOf(keys, Some(k), rest, last, limit - 1)
    requires forall u :: u in keys && Behind(u, cursor) ==> k <= u
    ensures IsPageOf(keys, cursor, [k] + rest, last, limit)
  {
    assert forall u :: u in keys && Behind(u, cursor) ==> u == k || Behind(u, Some(k));
  }

  /** The keys a cursor has passed. */
  function KeysUpTo(keys: set<nat>, cursor: Option<nat>): set<nat> {
    set k | k in keys && !Behind(k, cursor)
  }

  function KeysOf(page: seq<nat>): set<nat> { set k | k in page }

  lemma {:induction false} SortedCount(page: seq<nat>)
    requires forall i, j :: 0 <= i < j < |page| ==> page[i] < page[j]
    ensures |KeysOf(page)| == |page|
  {
    if page != [] {
      var rest, k := page[..|page| - 1], page[|page| - 1];
      SortedCount(rest);
      assert page == rest + [k];
      assert KeysOf(page) == KeysOf(rest) + {k};
      assert k !in KeysOf(rest);
    }
  }

  /** A page moves the passed keys on by exactly its own, each once; without a continuation all are
      passed. */
  lemma PagePasses(keys: set<nat>, cursor: Option<nat>, page: seq<nat>, last: Option<nat>, limit: nat)
    requires IsPageOf(keys, cursor, page, last, limit)
    ensures |KeysUpTo(keys, cursor) + KeysOf(page)| == |KeysUpTo(keys, cursor)| + |page|
    ensures KeysUpTo(keys, cursor) + KeysOf(page) == if last.Some? then KeysUpTo(keys, last) else keys
  {
    SortedCount(page);
    assert KeysUpTo(keys, cursor) !! KeysOf(page);
    var passed := KeysUpTo(keys, cursor) + KeysOf(page);
    forall k ensures k in passed <==> k in if last.Some? then KeysUpTo(keys, last) else keys {
      if k in keys && Behind(k, cursor) { assert k in page || (last.Some? && k > last.value); }
    }
  }

  /** There always is a page, and a last one when fewer keys are left than it may hold. */
  lemma {:induction false} PageExists(keys: set<nat>, cursor: Option<nat>, limit: nat) returns (page: seq<nat>, last: Option<nat>)
    requires limit >= 1
    ensures IsPageOf(keys, cursor, page, last, limit) && (|KeysBehind(keys, cursor)| < limit ==> last.None?)
    decreases |KeysBehind(keys, cursor)|
  {
    var behind := KeysBehind(keys, cursor);
    if behind == {} {
      assert forall k :: k in keys && Behind(k, cursor) ==> k in behind;
      return [], None;
    }
    assert forall u :: u in keys && Behind(u, cursor) <==> u in behind;
    var k := LeastExists(behind);
    SmallerSet({}, behind, k);
    if limit == 1 { return [k], Some(k); }
    assert KeysBehind(keys, Some(k)) <= behind;
    SmallerSet(KeysBehind(keys, Some(k)), behind, k);
    page, last := PageExists(keys, Some(k), limit - 1);
    var rest := page;
    page := [k] + page;
    PagePrepends(keys, cursor, k, rest, last, limit);
  }
}
