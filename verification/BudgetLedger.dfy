/** The durable reservation ledger of the offline message evaluation. */
module BudgetLedger {
  import opened Basics

  type Key = nat

  datatype Model = Mini41 | Nano54 | Mini54
  datatype Language = English | Spanish
  datatype Split = Smoke | Development

  const INPUT_CAP := 8192
  const OUTPUT_CAP := 512
  const ATTEMPT_CAP := 660
  const BUDGET_NANO := 5_000_000_000

  function InputRate(m: Model): nat { match m case Mini41 => 400 case Nano54 => 200 case Mini54 => 750 }
  function OutputRate(m: Model): nat { match m case Mini41 => 1600 case Nano54 => 1250 case Mini54 => 4500 }
  function ReserveCost(m: Model): nat { INPUT_CAP * InputRate(m) + OUTPUT_CAP * OutputRate(m) }
  /** What a dispatched case reserves, in billionths of a dollar. */
  lemma ReserveCosts()
    ensures ReserveCost(Mini41) == 4_096_000 && ReserveCost(Nano54) == 2_278_400 && ReserveCost(Mini54) == 8_448_000
  {
  }

  function SplitCap(s: Split): nat { match s case Smoke => 20 case Development => 200 }

  /** A validated outcome says whether the case was dispatched; the rest is opaque here. */
  datatype Outcome = Outcome(dispatched: bool, content: nat)

  datatype Attempt = Attempt(key: Key, model: Model, language: Language, split: Split, dispatched: bool, reserved: nat,
                             result: Option<Outcome>)

  // ---------------------------------------------------------------- what is counted

  function One(b: bool): nat { if b then 1 else 0 }

  predicate InBucket(a: Attempt, m: Model, s: Split) { a.dispatched && a.model == m && a.split == s }

  function Attempts(rows: seq<Attempt>): nat {
    if rows == [] then 0 else Attempts(rows[..|rows| - 1]) + One(rows[|rows| - 1].dispatched)
  }

  function Cost(rows: seq<Attempt>): nat {
    if rows == [] then 0 else Cost(rows[..|rows| - 1]) + rows[|rows| - 1].reserved
  }

  function Bucket(rows: seq<Attempt>, m: Model, s: Split): nat {
    if rows == [] then 0 else Bucket(rows[..|rows| - 1], m, s) + One(InBucket(rows[|rows| - 1], m, s))
  }

  predicate RowOk(a: Attempt) {
    a.reserved == (if a.dispatched then ReserveCost(a.model) else 0) && (a.result.Some? ==> a.result.value.dispatched == a.dispatched)
  }

  ghost predicate RowsOk(rows: seq<Attempt>) {
    && (forall i :: 0 <= i < |rows| ==> RowOk(rows[i]))
    && (forall i, j :: 0 <= i < j < |rows| ==> rows[i].key != rows[j].key)
  }

  predicate CapsOk(rows: seq<Attempt>) {
    && Attempts(rows) <= ATTEMPT_CAP && Cost(rows) <= BUDGET_NANO
    && forall m: Model, s: Split :: Bucket(rows, m, s) <= SplitCap(s)
  }

  function ModelCount(rows: seq<Attempt>, m: Model): nat { Bucket(rows, m, Smoke) + Bucket(rows, m, Development) }

  /** Attempts and cost are determined by the buckets. */
  lemma {:induction false} BucketsDetermine(rows: seq<Attempt>)
    requires forall i :: 0 <= i < |rows| ==> RowOk(rows[i])
    ensures Attempts(rows) == ModelCount(rows, Mini41) + ModelCount(rows, Nano54) + ModelCount(rows, Mini54)
    ensures Cost(rows) == ModelCount(rows, Mini41) * ReserveCost(Mini41) + ModelCount(rows, Nano54) * ReserveCost(Nano54)
                          + ModelCount(rows, Mini54) * ReserveCost(Mini54)
  {
    if rows != [] {
      BucketsDetermine(rows[..|rows| - 1]);
      assert RowOk(rows[|rows| - 1]);
    }
  }

  /** The split caps alone keep the attempts within 660 and the cost far within the budget. */
  lemma SplitCapsSuffice(rows: seq<Attempt>)
    requires forall i :: 0 <= i < |rows| ==> RowOk(rows[i])
    requires forall m: Model, s: Split :: Bucket(rows, m, s) <= SplitCap(s)
    ensures Attempts(rows) <= ATTEMPT_CAP && Cost(rows) <= 3_260_928_000 < BUDGET_NANO
  {
    BucketsDetermine(rows);
    forall m: Model ensures ModelCount(rows, m) <= 220 {
      assert Bucket(rows, m, Smoke) <= SplitCap(Smoke) && Bucket(rows, m, Development) <= SplitCap(Development);
    }
    ReserveCosts();
    assert ModelCount(rows, Mini41) <= 220 && ModelCount(rows, Nano54) <= 220 && ModelCount(rows, Mini54) <= 220;
  }

  predicate SameAccount(a: Attempt, b: Attempt) { a.(result := None) == b.(result := None) }

  lemma {:induction false} AccountsAgree(a: seq<Attempt>, b: seq<Attempt>, m: Model, s: Split)
    requires |a| == |b| && forall i :: 0 <= i < |a| ==> SameAccount(a[i], b[i])
    ensures Attempts(a) == Attempts(b) && Cost(a) == Cost(b) && Bucket(a, m, s) == Bucket(b, m, s)
  {
    if a != [] {
      AccountsAgree(a[..|a| - 1], b[..|b| - 1], m, s);
      assert SameAccount(a[|a| - 1], b[|b| - 1]);
    }
  }

  lemma AppendCounts(rows: seq<Attempt>, a: Attempt, m: Model, s: Split)
    ensures Attempts(rows + [a]) == Attempts(rows) + One(a.dispatched) && Cost(rows + [a]) == Cost(rows) + a.reserved
    ensures Bucket(rows + [a], m, s) == Bucket(rows, m, s) + One(InBucket(a, m, s))
  {
    assert (rows + [a])[..|rows|] == rows;
  }

  // ---------------------------------------------------------------- the ledger

  datatype Reservation = Fresh | Already | Conflict | CapReached | Invalid
  datatype Settlement = Settled | Missing | Mismatch | Disagrees | Unreadable

  /** Reservations stay, with everything that was accounted for. */
  ghost predicate Extends(before: seq<Attempt>, after: seq<Attempt>) {
    |before| <= |after| && forall i :: 0 <= i < |before| ==>
      SameAccount(before[i], after[i]) && (before[i].result.Some? ==> after[i].result == before[i].result)
  }

  ghost predicate Has(rows: seq<Attempt>, k: Key) { exists i :: 0 <= i < |rows| && rows[i].key == k }

  class ReservationLedger {
    var rows: seq<Attempt>
    /** The cases handed to the provider; no operation reads it. */
    ghost var dispatched: seq<Key>

    ghost predicate Valid()
      reads this
    {
      && RowsOk(rows) && CapsOk(rows)
      && (forall i, j :: 0 <= i < j < |dispatched| ==> dispatched[i] != dispatched[j])
      && (forall i :: 0 <= i < |dispatched| ==> Has(rows, dispatched[i]))
    }

    constructor ()
      ensures Valid() && rows == [] && dispatched == []
    {
      rows, dispatched := [], [];
    }

    method Find(k: Key) returns (found: Option<nat>)
      ensures found.Some? ==> found.value < |rows| && rows[found.value].key == k
      ensures found.None? ==> !Has(rows, k)
    {
      var i := 0;
      while i < |rows|
        invariant 0 <= i <= |rows| && forall j :: 0 <= j < i ==> rows[j].key != k
      {
        if rows[i].key == k { return Some(i); }
        i := i + 1;
      }
      found := None;
    }

    /** Recounts every row. */
    method Validate() returns (ok: bool)
      ensures ok <==> (forall i :: 0 <= i < |rows| ==> RowOk(rows[i])) && CapsOk(rows)
    {
      var attempts, cost, i := 0, 0, 0;
      var buckets: map<(Model, Split), nat> := map[];
      while i < |rows|
        invariant 0 <= i <= |rows| && attempts == Attempts(rows[..i]) && cost == Cost(rows[..i])
        invariant forall j :: 0 <= j < i ==> RowOk(rows[j])
        invariant forall m: Model, s: Split :: Bucket(rows[..i], m, s) == if (m, s) in buckets then buckets[(m, s)] else 0
      {
        var row := rows[i];
        if !RowOk(row) { return false; }
        assert rows[..i + 1][..i] == rows[..i];
        attempts, cost := attempts + One(row.dispatched), cost + row.reserved;
        var bucket := (row.model, row.split);
        buckets := buckets[bucket := (if bucket in buckets then buckets[bucket] else 0) + One(row.dispatched)];
        i := i + 1;
      }
      assert rows[..i] == rows;
      ok := attempts <= ATTEMPT_CAP && cost <= BUDGET_NANO && forall b | b in buckets :: buckets[b] <= SplitCap(b.1);
      assert ok ==> forall m: Model, s: Split :: Bucket(rows, m, s) <= SplitCap(s);
      if !ok && attempts <= ATTEMPT_CAP && cost <= BUDGET_NANO {
        var b :| b in buckets && buckets[b] > SplitCap(b.1);
        assert Bucket(rows, b.0, b.1) > SplitCap(b.1);
      }
    }

    method CountBucket(m: Model, s: Split) returns (n: nat)
      ensures n == Bucket(rows, m, s)
    {
      n := 0;
      var i := 0;
      while i < |rows|
        invariant 0 <= i <= |rows| && n == Bucket(rows[..i], m, s)
      {
        assert rows[..i + 1][..i] == rows[..i];
        n, i := n + One(InBucket(rows[i], m, s)), i + 1;
      }
      assert rows[..i] == rows;
    }

    /** A new key reserves its full cost once; a known one changes nothing. It is refused exactly when
        the bucket of its model and split is full. */
    method Reserve(k: Key, m: Model, l: Language, s: Split, dispatch: bool) returns (r: Reservation)
      requires Valid()
      modifies this`rows
      ensures Valid() && Extends(old(rows), rows)
      ensures r.Fresh? ==> !Has(old(rows), k) && rows == old(rows) + [Attempt(k, m, l, s, dispatch, if dispatch then ReserveCost(m) else 0, None)]
      ensures !r.Fresh? ==> rows == old(rows)
      ensures r.Already? ==> Has(rows, k)
      ensures r.CapReached? <==> !Has(old(rows), k) && dispatch && Bucket(old(rows), m, s) == (if s.Smoke? then 20 else 200)
      ensures !r.Invalid?
    {
      var ok := Validate();
      if !ok { return Invalid; }
      var found := Find(k);
      if found.Some? {
        var row := rows[found.value];
        return if (row.model, row.language, row.split, row.dispatched) == (m, l, s, dispatch) then Already else Conflict;
      }
      var amount := if dispatch then ReserveCost(m) else 0;
      var bucket := CountBucket(m, s);
      var row := Attempt(k, m, l, s, dispatch, amount, None);
      ReservationFits(rows, row);
      if Attempts(rows) + One(dispatch) <= ATTEMPT_CAP && Cost(rows) + amount <= BUDGET_NANO && bucket + One(dispatch) <= SplitCap(s) {
        rows := rows + [row];
        r := Fresh;
      } else {
        r := CapReached;
      }
    }

    /** Settles a reservation once; it never releases what was reserved. */
    method Finish(k: Key, value: Outcome) returns (r: Settlement)
      requires Valid()
      modifies this`rows
      ensures Valid() && Extends(old(rows), rows) && |rows| == |old(rows)|
      ensures r.Settled? ==> exists i :: 0 <= i < |rows| && rows[i].key == k && rows[i].result == Some(value)
      ensures !r.Settled? ==> rows == old(rows)
      ensures r.Missing? <==> !Has(old(rows), k)
      ensures !r.Unreadable?
    {
      var ok := Validate();
      if !ok { return Unreadable; }
      var found := Find(k);
      if found.None? { return Missing; }
      var i := found.value;
      if value.dispatched != rows[i].dispatched { return Mismatch; }
      if rows[i].result.Some? { return if rows[i].result == Some(value) then Settled else Disagrees; }
      var before := rows;
      rows := rows[i := rows[i].(result := Some(value))];
      FinishKeeps(before, rows);
      assert rows[i].key == k && rows[i].result == Some(value);
      r := Settled;
    }

    /** Other processes reserve and settle; callers rely on this contract alone. */
    method Interfere()
      requires Valid()
      modifies this
      ensures Valid() && Extends(old(rows), rows) && old(dispatched) <= dispatched
    {
    }

    /** The dispatch follows a fresh reservation, or a crash prevents it. */
    method ReserveAndDispatch(k: Key, m: Model, l: Language, s: Split, dispatch: bool) returns (started: bool)
      requires Valid()
      modifies this
      ensures Valid() && Extends(old(rows), rows) && old(dispatched) <= dispatched
      ensures started ==> Has(rows, k) && !Has(old(rows), k)
      ensures dispatched == old(dispatched) || (started && dispatch && dispatched == old(dispatched) + [k])
    {
      var r := Reserve(k, m, l, s, dispatch);
      if !r.Fresh? { return false; }
      assert rows[|rows| - 1].key == k;
      HasExtends(old(rows), rows);
      if * { return false; }
      if dispatch {
        // No earlier dispatch had this key, for each of those has its row and this row is new.
        dispatched := dispatched + [k];
      }
      started := true;
    }

    /** One case: a known key is never tried again, a fresh reservation precedes the dispatch, and a
        crash anywhere leaves at worst a reservation that stays. */
    method SimulateCase(k: Key, m: Model, l: Language, s: Split, dispatch: bool, content: nat) returns (finished: bool)
      requires Valid()
      modifies this
      ensures Valid() && Extends(old(rows), rows) && old(dispatched) <= dispatched
      ensures finished ==> Has(rows, k)
    {
      Interfere();
      var known := Find(k);
      if known.Some? { return false; }
      Interfere();
      var started := ReserveAndDispatch(k, m, l, s, dispatch);
      if !started { return false; }
      Interfere();
      ghost var reserved := rows;
      var settled := Finish(k, Outcome(dispatch, content));
      HasExtends(reserved, rows);
      finished := settled.Settled?;
    }
  }

  lemma HasExtends(before: seq<Attempt>, after: seq<Attempt>)
    requires Extends(before, after)
    ensures forall k :: Has(before, k) ==> Has(after, k)
  {
    forall k | Has(before, k) ensures Has(after, k) {
      var i :| 0 <= i < |before| && before[i].key == k;
      assert SameAccount(before[i], after[i]);
      assert after[i].key == k;
    }
  }

  lemma ReservationFits(rows: seq<Attempt>, a: Attempt)
    requires RowsOk(rows) && CapsOk(rows) && RowOk(a) && !Has(rows, a.key)
    ensures (Attempts(rows) + One(a.dispatched) <= ATTEMPT_CAP && Cost(rows) + a.reserved <= BUDGET_NANO
             && Bucket(rows, a.model, a.split) + One(a.dispatched) <= SplitCap(a.split))
            <==> !(a.dispatched && Bucket(rows, a.model, a.split) == SplitCap(a.split))
    ensures !(a.dispatched && Bucket(rows, a.model, a.split) == SplitCap(a.split)) ==> RowsOk(rows + [a]) && CapsOk(rows + [a])
  {
    assert Bucket(rows, a.model, a.split) <= SplitCap(a.split);
    if !(a.dispatched && Bucket(rows, a.model, a.split) == SplitCap(a.split)) {
      forall m: Model, s: Split ensures Bucket(rows + [a], m, s) <= SplitCap(s) {
        AppendCounts(rows, a, m, s);
        assert Bucket(rows, m, s) <= SplitCap(s);
      }
      AppendCounts(rows, a, a.model, a.split);
      SplitCapsSuffice(rows + [a]);
    }
  }

  lemma FinishKeeps(before: seq<Attempt>, after: seq<Attempt>)
    requires RowsOk(before) && CapsOk(before) && |after| == |before|
    requires forall i :: 0 <= i < |after| ==> SameAccount(before[i], after[i]) && RowOk(after[i])
    ensures RowsOk(after) && CapsOk(after)
  {
    forall i, j | 0 <= i < j < |after| ensures after[i].key != after[j].key {
      assert SameAccount(before[i], after[i]) && SameAccount(before[j], after[j]);
      assert before[i].key != before[j].key;
    }
    forall m: Model, s: Split ensures Bucket(after, m, s) <= SplitCap(s) {
      AccountsAgree(before, after, m, s);
      assert Bucket(before, m, s) <= SplitCap(s);
    }
    AccountsAgree(before, after, Mini41, Smoke);
  }
}
