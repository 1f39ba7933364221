/** The loops that build an aggregate from the collected contributions. */
module AggregateBuilder {
  import opened Sums
  import opened Candidate
  import opened Dimensions

  function CountOf(counts: map<string, nat>, id: string): nat {
    if id in counts then counts[id] else 0
  }

  /** Each identifier's count is the number of contributions among `done` carrying it. */
  ghost predicate Tallies(counts: map<string, nat>, rows: Rows, done: set<Token>, d: Dimension)
    requires done <= rows.Keys
  {
    forall id :: CountOf(counts, id) == |Carriers(rows, done, d, id)|
  }

  function Counted(counts: map<string, nat>, values: set<string>): map<string, nat> {
    map id | id in counts.Keys + values :: CountOf(counts, id) + if id in values then 1 else 0
  }

  lemma SharedWith<T>(done: set<T>, t: T, all: set<T>)
    requires t !in done
    ensures |(done + {t}) * all| == |done * all| + if t in all then 1 else 0
  {
    if t in all {
      assert (done + {t}) * all == done * all + {t};
    } else {
      assert (done + {t}) * all == done * all;
    }
  }

  lemma CarriersAmong(rows: Rows, s: set<Token>, d: Dimension, id: string)
    requires s <= rows.Keys
    ensures Carriers(rows, s, d, id) == s * Carriers(rows, rows.Keys, d, id)
  {
  }

  lemma CarriersStep(rows: Rows, done: set<Token>, t: Token, d: Dimension, id: string)
    requires done <= rows.Keys && t in rows && t !in done
    ensures |Carriers(rows, done + {t}, d, id)| == |Carriers(rows, done, d, id)| + if id in Identifiers(rows[t], d) then 1 else 0
  {
    CarriersAmong(rows, done, d, id);
    CarriersAmong(rows, done + {t}, d, id);
    SharedWith(done, t, Carriers(rows, rows.Keys, d, id));
  }

  lemma TallyStep(counts: map<string, nat>, rows: Rows, done: set<Token>, t: Token, d: Dimension)
    requires done <= rows.Keys && t in rows && t !in done && Tallies(counts, rows, done, d)
    ensures Tallies(Counted(counts, Identifiers(rows[t], d)), rows, done + {t}, d)
  {
    var next := Counted(counts, Identifiers(rows[t], d));
    forall id ensures CountOf(next, id) == |Carriers(rows, done + {t}, d, id)| {
      CarriersStep(rows, done, t, d, id);
      assert CountOf(counts, id) == |Carriers(rows, done, d, id)|;
    }
  }

  /** Counts each identifier once per contribution and keeps those that ten carry. */
  method ThresholdedIds(rows: Rows, eligible: set<Token>, d: Dimension) returns (ids: set<string>)
    requires eligible <= rows.Keys
    ensures ids == Thresholded(rows, eligible, d)
  {
    var counts: map<string, nat> := map[];
    var left := eligible;
    assert eligible - left == {};
    while left != {}
      invariant left <= eligible && Tallies(counts, rows, eligible - left, d)
      decreases left
    {
      var t :| t in left;
      TallyStep(counts, rows, eligible - left, t, d);
      assert eligible - (left - {t}) == (eligible - left) + {t};
      counts, left := Counted(counts, Identifiers(rows[t], d)), left - {t};
    }
    assert eligible - left == eligible;
    ids := set id | id in counts && counts[id] >= MINIMUM_CONTRIBUTORS;
    forall id ensures id in ids <==> id in Thresholded(rows, eligible, d) {
      assert CountOf(counts, id) == |Carriers(rows, eligible, d, id)|;
      ThresholdedExactly(rows, eligible, d, id);
    }
  }

  /** The capped sum of submissions. */
  method CappedSubmissions(rows: Rows, eligible: set<Token>) returns (sum: nat)
    requires eligible <= rows.Keys
    ensures sum == CappedSum(rows, eligible)
  {
    sum := 0;
    var left := eligible;
    assert CappedMap(rows, eligible - left) == map[];
    while left != {}
      invariant left <= eligible && sum == CappedSum(rows, eligible - left)
      decreases left
    {
      var t :| t in left;
      assert CappedMap(rows, eligible - (left - {t})) == CappedMap(rows, eligible - left)[t := Capped(rows[t])];
      TotalAdd(CappedMap(rows, eligible - left), t, Capped(rows[t]));
      sum, left := sum + Capped(rows[t]), left - {t};
    }
    assert eligible - left == eligible;
  }

  method BuildBody(bucket: string, period: nat, rows: Rows, publication: Publication, now: nat) returns (body: Body)
    ensures body == BodyOf(bucket, period, rows, publication, now)
    ensures Aggregates(body, rows, Unexpired(rows, now))
  {
    var eligible := Unexpired(rows, now);
    var submissions := CappedSubmissions(rows, eligible);
    var languages := ThresholdedIds(rows, eligible, Language);
    var tactics := ThresholdedIds(rows, eligible, Tactic);
    var channels := ThresholdedIds(rows, eligible, Channel);
    body := Body(bucket, period, |eligible|, submissions, languages, tactics, channels,
                 CountBand(|eligible|), CountBand(submissions), publication.startedAt + AGGREGATE_SECONDS);
    BodyAggregates(bucket, period, rows, publication, now);
  }
}
