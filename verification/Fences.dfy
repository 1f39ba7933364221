/** Tombstones as workers see them. */
module Fences {
  import opened Basics
  import opened Table
  import opened Observations

  predicate FenceSeen(h: History, r: nat, p: Partition) {
    r < |h| && PartOf(h[r], p).tombstone.Some?
  }

  function FenceAt(h: History, r: nat, p: Partition): Tombstone
    requires FenceSeen(h, r, p)
  {
    PartOf(h[r], p).tombstone.value
  }

  function OwnPartition(w: Worker, period: nat): Partition { Partition(period, w.account) }
}
