/** The account export: a stateless cursor over a plan of partitions, one bounded page per call. */
module Export {
  import opened Basics
  import opened TokenLength

  const PAGE_ROWS := 25
  const PAGE_BUDGET := 48000
  const MAX_PAGE_BYTES := 65536
  const MAX_TOTAL_BYTES := 8 * 1024 * 1024
  const MAX_PAGES := 256
  const MAX_TOKEN := 8192

  type Key = nat

  /** What a row is projected to, and the length of its encoding. */
  datatype Item = Item(content: nat, length: nat)
  datatype Row = Row(key: Key, projected: Option<Item>)

  /** One plan entry: a single record, or a partition in key order. */
  datatype Entry = Entry(single: bool, rows: seq<Row>)

  ghost predicate EntryOk(e: Entry) {
    && (forall i, j :: 0 <= i < j < |e.rows| ==> e.rows[i].key < e.rows[j].key)
    && (e.single ==> |e.rows| <= 1)
  }

  datatype Result<T> = Ok(value: T) | Err(error: Error)
  datatype Error = InvalidCursor | LimitExceeded | ServiceUnavailable

  // ---------------------------------------------------------------- the full read

  /** The projection of a whole partition, in key order. */
  function Projected(row: Row): seq<Item> { if row.projected.Some? then [row.projected.value] else [] }

  function Kept(rows: seq<Row>): seq<Item> {
    if rows == [] then [] else Projected(rows[0]) + Kept(rows[1..])
  }

  lemma HeadAndTail(a: seq<Row>, b: seq<Row>)
    requires a != []
    ensures a + b != [] && (a + b)[0] == a[0] && (a + b)[1..] == a[1..] + b
  {
  }

  lemma Associates(x: seq<Item>, y: seq<Item>, z: seq<Item>)
    ensures x + (y + z) == (x + y) + z
  {
  }

  lemma {:induction false} KeptConcat(a: seq<Row>, b: seq<Row>)
    ensures Kept(a + b) == Kept(a) + Kept(b)
  {
    if a == [] {
      assert a + b == b;
    } else {
      HeadAndTail(a, b);
      KeptConcat(a[1..], b);
      Associates(Projected(a[0]), Kept(a[1..]), Kept(b));
    }
  }

  /** What a page is charged for its items: each one with a comma. */
  function Bytes(items: seq<Item>): nat {
    if items == [] then 0 else Bytes(items[..|items| - 1]) + items[|items| - 1].length + 1
  }

  /** The length of the encoded items: commas only between them. */
  function Encoded(items: seq<Item>): nat {
    if items == [] then 0
    else Encoded(items[..|items| - 1]) + items[|items| - 1].length + (if |items| == 1 then 0 else 1)
  }

  /** The charge is one more than the length of a page that is not empty. */
  lemma {:induction false} ChargedForEncoding(items: seq<Item>)
    ensures Bytes(items) == Encoded(items) + (if items == [] then 0 else 1)
  {
    if |items| > 0 { ChargedForEncoding(items[..|items| - 1]); }
  }

  // ---------------------------------------------------------------- reading one page

  /** How many rows a position has passed. */
  function Passed(rows: seq<Row>, position: Option<Key>): (n: nat)
    ensures n <= |rows|
  {
    if rows == [] || position.None? then 0
    else if rows[|rows| - 1].key <= position.value then |rows|
    else Passed(rows[..|rows| - 1], position)
  }

  lemma {:induction false} PassedAt(rows: seq<Row>, n: nat)
    requires 0 < n <= |rows| && forall i, j :: 0 <= i < j < |rows| ==> rows[i].key < rows[j].key
    ensures Passed(rows, Some(rows[n - 1].key)) == n
  {
    if n < |rows| {
      var shorter := rows[..|rows| - 1];
      assert shorter[n - 1] == rows[n - 1];
      PassedAt(shorter, n);
    }
  }

  /** One query: at most 25 rows behind the position, and a continuation key unless it reached the
      end. */
  ghost predicate IsQuery(e: Entry, position: Option<Key>, page: seq<Row>, next: Option<Key>) {
    IsQueryFrom(e.rows, Passed(e.rows, position), page, next)
  }

  ghost predicate IsQueryFrom(rows: seq<Row>, start: nat, page: seq<Row>, next: Option<Key>) {
    && |page| <= PAGE_ROWS && start + |page| <= |rows| && page == rows[start..start + |page|]
    && (next.None? ==> start + |page| == |rows|)
    && (next.Some? ==> page != [] && next.value == page[|page| - 1].key)
  }

  method Query(e: Entry, position: Option<Key>) returns (page: seq<Row>, next: Option<Key>)
    ensures IsQuery(e, position, page, next)
  {
    var start := Passed(e.rows, position);
    if start + PAGE_ROWS <= |e.rows| {
      page := e.rows[start..start + PAGE_ROWS];
      next := Some(page[PAGE_ROWS - 1].key);
    } else {
      page, next := e.rows[start..], None;
      assert page == e.rows[start..start + |page|];
    }
  }

  /** What one read delivers: the projection of the next `n` rows, and the position behind them, or
      none at the end of the partition. */
  ghost predicate Delivers(e: Entry, position: Option<Key>, items: seq<Item>, next: Option<Key>, n: nat) {
    DeliversFrom(e.rows, Passed(e.rows, position), items, next, n)
  }

  ghost predicate DeliversFrom(rows: seq<Row>, start: nat, items: seq<Item>, next: Option<Key>, n: nat) {
    && start + n <= |rows| && items == Kept(rows[start..start + n])
    && (if next.None? then start + n == |rows| else n > 0 && next.value == rows[start + n - 1].key)
  }

  lemma RowKept(page: seq<Row>, j: nat)
    requires j < |page|
    ensures Kept(page[..j + 1]) == Kept(page[..j]) + Projected(page[j])
  {
    assert page[..j + 1] == page[..j] + [page[j]];
    KeptConcat(page[..j], [page[j]]);
    assert Kept([page[j]]) == Projected(page[j]) + Kept([page[j]][1..]);
  }

  /** A row is kept as its item, or not at all. */
  lemma RowTaken(page: seq<Row>, j: nat, items: seq<Item>)
    requires j < |page| && items == Kept(page[..j])
    ensures Kept(page[..j + 1]) == if page[j].projected.Some? then items + [page[j].projected.value] else items
    ensures page[j].projected.Some? ==> Bytes(items + [page[j].projected.value]) == Bytes(items) + page[j].projected.value.length + 1
  {
    RowKept(page, j);
    if page[j].projected.Some? { BytesAppend(items, page[j].projected.value); }
  }

  lemma BytesAppend(items: seq<Item>, item: Item)
    ensures Bytes(items + [item]) == Bytes(items) + item.length + 1
  {
    assert (items + [item])[..|items|] == items;
  }

  /** These are the items of the first rows of a page, and this is what they are charged. */
  ghost function CutOff(page: seq<Row>): (seq<Item>, nat, nat) -> bool {
    (items: seq<Item>, taken: nat, size: nat) =>
      taken <= |page| && items == Kept(page[..taken]) && |items| <= taken && size == Bytes(items)
  }

  lemma CutNext(page: seq<Row>, items: seq<Item>, taken: nat, size: nat)
    requires CutOff(page)(items, taken, size) && taken < |page|
    ensures if page[taken].projected.Some?
            then CutOff(page)(items + [page[taken].projected.value], taken + 1, size + page[taken].projected.value.length + 1)
            else CutOff(page)(items, taken + 1, size)
  {
    RowTaken(page, taken, items);
  }

  lemma CutNothing(page: seq<Row>)
    ensures CutOff(page)([], 0, 0)
  {
    assert page[..0] == [] && Kept([]) == [] && Bytes([]) == 0;
  }

  /** Projects rows until the page ends or the next item would exceed the byte budget. */
  method Cut(page: seq<Row>) returns (items: seq<Item>, taken: nat, size: nat)
    ensures CutOff(page)(items, taken, size) && taken <= |page| && size <= PAGE_BUDGET
    ensures taken < |page| ==> page[taken].projected.Some? && size + page[taken].projected.value.length + 1 > PAGE_BUDGET
  {
    items, taken, size := [], 0, 0;
    CutNothing(page);
    while taken < |page|
      invariant CutOff(page)(items, taken, size) && taken <= |page| && size <= PAGE_BUDGET
    {
      CutNext(page, items, taken, size);
      if page[taken].projected.Some? {
        var item := page[taken].projected.value;
        if size + item.length + 1 > PAGE_BUDGET { return; }
        items, size := items + [item], size + item.length + 1;
      }
      taken := taken + 1;
    }
  }

  lemma CutDelivers(rows: seq<Row>, start: nat, page: seq<Row>, items: seq<Item>, taken: nat)
    requires start + |page| <= |rows| && page == rows[start..start + |page|]
    requires 0 < taken <= |page| && items == Kept(page[..taken])
    ensures DeliversFrom(rows, start, items, Some(page[taken - 1].key), taken)
  {
    assert page[..taken] == rows[start..start + taken];
    assert page[taken - 1] == rows[start + taken - 1];
  }

  lemma WholeDelivers(rows: seq<Row>, start: nat, page: seq<Row>, next: Option<Key>, items: seq<Item>)
    requires IsQueryFrom(rows, start, page, next) && items == Kept(page)
    ensures DeliversFrom(rows, start, items, next, |page|)
  {
    if page != [] { assert page[|page| - 1] == rows[start + |page| - 1]; }
  }

  lemma SingleQuery(e: Entry)
    requires EntryOk(e) && e.single
    ensures IsQuery(e, None, e.rows, None)
  {
    assert e.rows == e.rows[0..|e.rows|];
  }

  /** Reads one page and cuts it before the first item that would exceed the budget; an item that
      exceeds it alone cannot be exported. */
  method Read(e: Entry, position: Option<Key>) returns (r: Result<(seq<Item>, Option<Key>)>, ghost n: nat)
    requires EntryOk(e)
    ensures r.Ok? ==> Delivers(e, position, r.value.0, r.value.1, n) && |r.value.0| <= PAGE_ROWS && Bytes(r.value.0) <= PAGE_BUDGET
    ensures r.Ok? && e.single ==> r.value.1.None?
    ensures r.Err? && !r.error.LimitExceeded? ==> r.error.InvalidCursor? && e.single && position.Some?
    ensures r.Err? ==> (e.single && position.Some?) || exists row :: row in e.rows && row.projected.Some? && row.projected.value.length + 1 > PAGE_BUDGET
  {
    if e.single && position.Some? { return Err(InvalidCursor), 0; }
    var page, continuation;
    if e.single {
      page, continuation := e.rows, None;
      SingleQuery(e);
    } else {
      page, continuation := Query(e, position);
    }
    var items, taken, size := Cut(page);
    if taken == |page| {
      assert page[..taken] == page;
      WholeDelivers(e.rows, Passed(e.rows, position), page, continuation, items);
      r, n := Ok((items, continuation)), |page|;
    } else if items == [] || e.single {
      assert page[taken] in e.rows;
      r, n := Err(LimitExceeded), 0;
    } else {
      CutDelivers(e.rows, Passed(e.rows, position), page, items, taken);
      r, n := Ok((items, Some(page[taken - 1].key))), taken;
    }
  }

  // ---------------------------------------------------------------- one call

  /** What a cursor carries besides the identity it is bound to. */
  datatype Token = Token(pageNumber: nat, familyIndex: nat, position: Option<Key>, totalBytes: nat)

  /** `bytes` is the length of the encoded response, its next cursor included. */
  datatype Response = Response(family: nat, items: seq<Item>, next: Option<Token>, bytes: nat)

  const START := Token(0, 0, None, 0)

  /** The encoded lengths of everything that does not depend on the byte counter. */
  datatype Sizes = Sizes(kid: nat, fixedToken: nat, keyBytes: Key -> nat, fixedResponse: nat, familyBytes: nat -> nat)

  function PlainRest(z: Sizes, t: Token): nat {
    z.fixedToken + Digits(t.pageNumber) + Digits(t.familyIndex) + (if t.position.None? then 4 else 2 + z.keyBytes(t.position.value))
  }

  function Sealed(z: Sizes, t: Token): nat { SealedLength(z.kid, PlainRest(z, t) + Digits(t.totalBytes)) }

  function ResponseRest(z: Sizes, token: Token, items: seq<Item>, complete: bool): nat {
    z.fixedResponse + z.familyBytes(token.familyIndex) + Digits(token.pageNumber) + Encoded(items) + if complete then 12 else 13
  }

  ghost predicate EntryAt(plan: seq<Entry>, i: nat)
    requires i < |plan|
  {
    EntryOk(plan[i])
  }

  ghost predicate PlanOk(plan: seq<Entry>) { forall i :: 0 <= i < |plan| ==> EntryAt(plan, i) }

  /** The position and family behind a page. */
  function After(plan: seq<Entry>, token: Token, position: Option<Key>, total: nat): Option<Token> {
    if position.None? && token.familyIndex + 1 == |plan| then None
    else Some(Token(token.pageNumber + 1, if position.Some? then token.familyIndex else token.familyIndex + 1, position, total))
  }

  /** A response: the next `n` rows of its family, the cursor behind them, and its exact length. */
  ghost predicate Answers(plan: seq<Entry>, z: Sizes, token: Token, r: Response, n: nat) {
    && r.family == token.familyIndex < |plan|
    && (exists position ::
          && Delivers(plan[r.family], token.position, r.items, position, n)
          && r.next == After(plan, token, position, token.totalBytes + r.bytes))
    && r.bytes == ResponseRest(z, token, r.items, r.next.None?) + (if r.next.Some? then Sealed(z, r.next.value) else 0)
    && r.bytes <= MAX_PAGE_BYTES && token.totalBytes + r.bytes <= MAX_TOTAL_BYTES
  }

  /** With a byte counter of at most `most`, the cursor does not fit. */
  predicate TooLong(z: Sizes, next: Token, total: nat, most: nat) {
    total <= most && Sealed(z, next.(totalBytes := total)) > MAX_TOKEN
  }

  /** A cursor that a call with this token may answer with. */
  predicate MayFollow(plan: seq<Entry>, token: Token, t: Token) {
    t.pageNumber == token.pageNumber + 1 && t.familyIndex <= |plan| && t.totalBytes <= MAX_TOTAL_BYTES
  }

  /** The call is within every limit: its page is not the last one allowed, it names a partition of the plan
      and no position in a single record, no item exceeds the page budget, every cursor that may follow can be
      sealed, and a full page with its cursor fits the response and the whole export. */
  ghost predicate WithinLimits(plan: seq<Entry>, z: Sizes, token: Token) {
    && token.pageNumber + 1 < MAX_PAGES && token.familyIndex < |plan|
    && !(plan[token.familyIndex].single && token.position.Some?)
    && (forall row :: row in plan[token.familyIndex].rows && row.projected.Some? ==> row.projected.value.length + 1 <= PAGE_BUDGET)
    && (forall t :: MayFollow(plan, token, t) ==> Sealed(z, t) <= MAX_TOKEN)
    && z.fixedResponse + z.familyBytes(token.familyIndex) + Digits(token.pageNumber) + PAGE_BUDGET + 13 + MAX_TOKEN <= MAX_PAGE_BYTES
    && token.totalBytes + MAX_PAGE_BYTES <= MAX_TOTAL_BYTES
  }

  /** Within the limits the next cursor can be sealed. */
  lemma NotTooLong(plan: seq<Entry>, z: Sizes, token: Token, next: Token, total: nat, rest: nat)
    requires WithinLimits(plan, z, token) && MayFollow(plan, token, next) && rest + MAX_TOKEN <= MAX_PAGE_BYTES
    ensures !TooLong(z, next, total, token.totalBytes + rest + MAX_TOKEN)
  {
    if total <= token.totalBytes + rest + MAX_TOKEN { assert MayFollow(plan, token, next.(totalBytes := total)); }
  }

  /** Seals the next cursor until its byte counter counts the response that contains it. Four rounds
      are enough for every input: the failure after them is unreachable. */
  method SealNext(z: Sizes, before: nat, rest: nat, next: Token) returns (r: Result<Token>, ghost long: nat)
    requires next.totalBytes == before
    ensures r.Ok? ==> r.value == next.(totalBytes := before + rest + Sealed(z, r.value))
    ensures r.Ok? ==> Sealed(z, r.value) <= MAX_TOKEN
    ensures r.Err? ==> r.error.LimitExceeded? && TooLong(z, next, long, before + rest + MAX_TOKEN)
  {
    var t := next;
    long := 0;
    var i := 0;
    ghost var round := Round(before, rest, z.kid, PlainRest(z, next));
    FourRounds(before, rest, z.kid, PlainRest(z, next));
    while i < 4
      invariant 0 <= i <= 3 && t == next.(totalBytes := t.totalBytes) && t.totalBytes <= before + rest + MAX_TOKEN
      invariant t.totalBytes == if i == 0 then before else if i == 1 then round(before) else if i == 2 then round(round(before)) else round(round(round(before)))
    {
      var sealed := Sealed(z, t);
      if sealed > MAX_TOKEN {
        return Err(LimitExceeded), t.totalBytes;
      }
      var total := before + rest + sealed;
      SealedRound(z, before, rest, next, t);
      if t.totalBytes == total { return Ok(t), 0; }
      t, i := t.(totalBytes := total), i + 1;
    }
    r := Err(ServiceUnavailable);
  }

  lemma SealedRound(z: Sizes, before: nat, rest: nat, next: Token, t: Token)
    requires t == next.(totalBytes := t.totalBytes)
    ensures before + rest + Sealed(z, t) == Round(before, rest, z.kid, PlainRest(z, next))(t.totalBytes)
  {
  }

  /** Seals the cursor behind the rows that were read and measures the response. */
  method Respond(plan: seq<Entry>, z: Sizes, token: Token, items: seq<Item>, position: Option<Key>, ghost n: nat) returns (r: Result<Response>)
    requires token.familyIndex < |plan| && Delivers(plan[token.familyIndex], token.position, items, position, n)
    requires Bytes(items) <= PAGE_BUDGET
    ensures r.Ok? ==> Answers(plan, z, token, r.value, n)
    ensures r.Err? ==> r.error.LimitExceeded? && !WithinLimits(plan, z, token)
  {
    var next := After(plan, token, position, token.totalBytes);
    var rest := ResponseRest(z, token, items, next.None?);
    var bytes := rest;
    ChargedForEncoding(items);
    if next.Some? {
      if next.value.pageNumber >= MAX_PAGES { return Err(LimitExceeded); }
      var sealed, long := SealNext(z, token.totalBytes, rest, next.value);
      if sealed.Err? {
        if WithinLimits(plan, z, token) { NotTooLong(plan, z, token, next.value, long, rest); }
        return Err(LimitExceeded);
      }
      next, bytes := Some(sealed.value), rest + Sealed(z, sealed.value);
    }
    if bytes > MAX_PAGE_BYTES || token.totalBytes + bytes > MAX_TOTAL_BYTES { return Err(LimitExceeded); }
    assert next == After(plan, token, position, token.totalBytes + bytes);
    r := Ok(Response(token.familyIndex, items, next, bytes));
  }

  /** One call. It fails only for a cursor that names nothing in the plan, or when a limit is reached. */
  method Page(plan: seq<Entry>, z: Sizes, token: Token) returns (r: Result<Response>, ghost n: nat)
    requires PlanOk(plan)
    ensures r.Ok? ==> Answers(plan, z, token, r.value, n)
    ensures r.Err? ==> !r.error.ServiceUnavailable?
    ensures r.Err? && r.error.InvalidCursor? ==>
              token.familyIndex >= |plan| || (plan[token.familyIndex].single && token.position.Some?)
    ensures WithinLimits(plan, z, token) ==> r.Ok?
  {
    n := 0;
    if token.pageNumber >= MAX_PAGES || token.totalBytes > MAX_TOTAL_BYTES { return Err(LimitExceeded), 0; }
    if token.familyIndex >= |plan| { return Err(InvalidCursor), 0; }
    assert EntryAt(plan, token.familyIndex);
    var read;
    read, n := Read(plan[token.familyIndex], token.position);
    if read.Err? { return Err(if read.error.InvalidCursor? then InvalidCursor else LimitExceeded), 0; }
    r := Respond(plan, z, token, read.value.0, read.value.1, n);
  }

  // ---------------------------------------------------------------- a whole export

  ghost predicate AnsweredAt(plan: seq<Entry>, z: Sizes, tokens: seq<Token>, pages: seq<Response>, ns: seq<nat>, i: nat)
    requires i < |tokens| && i < |pages| && i < |ns|
  {
    Answers(plan, z, tokens[i], pages[i], ns[i])
  }

  ghost predicate Presented(tokens: seq<Token>, pages: seq<Response>, i: nat)
    requires i + 1 < |tokens| && i < |pages|
  {
    pages[i].next == Some(tokens[i + 1])
  }

  /** The tokens and responses of one export from its start, each token the previous response's. */
  ghost predicate Exports(plan: seq<Entry>, z: Sizes, tokens: seq<Token>, pages: seq<Response>, ns: seq<nat>) {
    && |tokens| == |pages| == |ns| && |pages| > 0 && tokens[0] == START
    && (forall i :: 0 <= i < |pages| ==> AnsweredAt(plan, z, tokens, pages, ns, i))
    && (forall i :: 0 <= i < |pages| - 1 ==> Presented(tokens, pages, i))
  }

  function ItemsIn(r: Response, f: nat): seq<Item> { if r.family == f then r.items else [] }

  function ItemsOf(pages: seq<Response>, f: nat, k: nat): seq<Item>
    requires k <= |pages|
  {
    if k == 0 then [] else ItemsOf(pages, f, k - 1) + ItemsIn(pages[k - 1], f)
  }

  function TotalBytes(pages: seq<Response>, k: nat): nat
    requires k <= |pages|
  {
    if k == 0 then 0 else TotalBytes(pages, k - 1) + pages[k - 1].bytes
  }

  /** What has been delivered of a family when a token is presented. */
  function Delivered(plan: seq<Entry>, token: Token, f: nat): seq<Item>
    requires f < |plan|
  {
    if f < token.familyIndex then Kept(plan[f].rows)
    else if f == token.familyIndex then Kept(plan[f].rows[..Passed(plan[f].rows, token.position)])
    else []
  }

  lemma SlicesJoin(rows: seq<Row>, start: nat, n: nat, items: seq<Item>)
    requires start + n <= |rows| && items == Kept(rows[start..start + n])
    ensures Kept(rows[..start]) + items == Kept(rows[..start + n])
  {
    KeptConcat(rows[..start], rows[start..start + n]);
    assert rows[..start] + rows[start..start + n] == rows[..start + n];
  }

  /** One response adds exactly the rows between its token's position and the next one. */
  lemma PageAddsFrom(rows: seq<Row>, start: nat, items: seq<Item>, next: Option<Key>, n: nat)
    requires DeliversFrom(rows, start, items, next, n)
    ensures Kept(rows[..start]) + items == Kept(rows[..start + n]) && (next.None? ==> rows[..start + n] == rows)
  {
    SlicesJoin(rows, start, n, items);
  }

  lemma PageAdds(e: Entry, position: Option<Key>, items: seq<Item>, next: Option<Key>, n: nat)
    requires EntryOk(e) && Delivers(e, position, items, next, n)
    ensures Kept(e.rows[..Passed(e.rows, position)]) + items == Kept(if next.None? then e.rows else e.rows[..Passed(e.rows, next)])
  {
    var start := Passed(e.rows, position);
    PageAddsFrom(e.rows, start, items, next, n);
    if next.Some? { PassedAt(e.rows, start + n); }
  }

  lemma OtherFamily(plan: seq<Entry>, token: Token, next: Token, f: nat)
    requires f < |plan| && f != token.familyIndex
    requires next.familyIndex == token.familyIndex || (next.familyIndex == token.familyIndex + 1 && next.position.None?)
    ensures Delivered(plan, next, f) == Delivered(plan, token, f)
  {
    if f == next.familyIndex { assert plan[f].rows[..0] == []; }
  }

  lemma SameFamily(plan: seq<Entry>, token: Token, next: Token, position: Option<Key>, items: seq<Item>, n: nat)
    requires token.familyIndex < |plan| && EntryOk(plan[token.familyIndex])
    requires Delivers(plan[token.familyIndex], token.position, items, position, n)
    requires if position.Some? then next.familyIndex == token.familyIndex && next.position == position
             else next.familyIndex == token.familyIndex + 1
    ensures Delivered(plan, next, token.familyIndex) == Delivered(plan, token, token.familyIndex) + items
  {
    PageAdds(plan[token.familyIndex], token.position, items, position, n);
  }

  lemma ResponseAdds(plan: seq<Entry>, z: Sizes, token: Token, r: Response, n: nat, next: Token, f: nat)
    requires PlanOk(plan) && Answers(plan, z, token, r, n) && r.next == Some(next) && f < |plan|
    ensures Delivered(plan, next, f) == Delivered(plan, token, f) + if r.family == f then r.items else []
  {
    var position := PositionBehind(plan, z, token, r, n);
    if f == r.family {
      assert EntryAt(plan, r.family);
      SameFamily(plan, token, next, position, r.items, n);
    } else {
      OtherFamily(plan, token, next, f);
    }
  }

  lemma PositionBehind(plan: seq<Entry>, z: Sizes, token: Token, r: Response, n: nat) returns (position: Option<Key>)
    requires Answers(plan, z, token, r, n)
    ensures r.family == token.familyIndex < |plan| && Delivers(plan[r.family], token.position, r.items, position, n)
    ensures r.next == After(plan, token, position, token.totalBytes + r.bytes)
  {
    position :| Delivers(plan[r.family], token.position, r.items, position, n)
                && r.next == After(plan, token, position, token.totalBytes + r.bytes);
  }

  ghost predicate Adds(delivered: Token -> seq<Item>, tokens: seq<Token>, pages: seq<Response>, f: nat, i: nat)
    requires i + 1 < |tokens| && i < |pages|
  {
    delivered(tokens[i + 1]) == delivered(tokens[i]) + (if pages[i].family == f then pages[i].items else [])
  }

  lemma {:induction false} Accumulates(delivered: Token -> seq<Item>, tokens: seq<Token>, pages: seq<Response>, f: nat, k: nat)
    requires |tokens| == |pages| && k < |pages| && delivered(tokens[0]) == []
    requires forall i :: 0 <= i < k ==> Adds(delivered, tokens, pages, f, i)
    ensures ItemsOf(pages, f, k) == delivered(tokens[k])
  {
    if k > 0 {
      Accumulates(delivered, tokens, pages, f, k - 1);
      assert Adds(delivered, tokens, pages, f, k - 1);
    }
  }

  lemma NothingDelivered(plan: seq<Entry>, f: nat)
    requires f < |plan|
    ensures Delivered(plan, START, f) == []
  {
    assert plan[f].rows[..0] == [];
  }

  lemma DeliveredSoFar(plan: seq<Entry>, z: Sizes, tokens: seq<Token>, pages: seq<Response>, ns: seq<nat>, k: nat, f: nat)
    requires PlanOk(plan) && Exports(plan, z, tokens, pages, ns) && k < |pages| && f < |plan|
    ensures ItemsOf(pages, f, k) == Delivered(plan, tokens[k], f)
  {
    var delivered := (t: Token) => Delivered(plan, t, f);
    NothingDelivered(plan, f);
    forall i | 0 <= i < k ensures Adds(delivered, tokens, pages, f, i) {
      assert AnsweredAt(plan, z, tokens, pages, ns, i) && Presented(tokens, pages, i);
      ResponseAdds(plan, z, tokens[i], pages[i], ns[i], tokens[i + 1], f);
    }
    Accumulates(delivered, tokens, pages, f, k);
  }

  lemma LastAdds(plan: seq<Entry>, z: Sizes, token: Token, r: Response, n: nat, f: nat)
    requires PlanOk(plan) && Answers(plan, z, token, r, n) && r.next.None? && f < |plan|
    ensures Delivered(plan, token, f) + (if r.family == f then r.items else []) == Kept(plan[f].rows)
  {
    var position := PositionBehind(plan, z, token, r, n);
    if f == r.family {
      assert EntryAt(plan, r.family);
      PageAdds(plan[r.family], token.position, r.items, position, n);
    }
  }

  /** A completed export read every plan entry to its end: for each, its pages together are the
      projection of the whole partition in key order, nothing lost and nothing repeated. */
  lemma ExportIsFullRead(plan: seq<Entry>, z: Sizes, tokens: seq<Token>, pages: seq<Response>, ns: seq<nat>, f: nat)
    requires PlanOk(plan) && Exports(plan, z, tokens, pages, ns) && pages[|pages| - 1].next.None? && f < |plan|
    ensures ItemsOf(pages, f, |pages|) == Kept(plan[f].rows)
  {
    var before := BeforeLast(plan, z, tokens, pages, ns, f);
    LastItems(pages, f);
  }

  lemma BeforeLast(plan: seq<Entry>, z: Sizes, tokens: seq<Token>, pages: seq<Response>, ns: seq<nat>, f: nat) returns (before: seq<Item>)
    requires PlanOk(plan) && Exports(plan, z, tokens, pages, ns) && pages[|pages| - 1].next.None? && f < |plan|
    ensures ItemsOf(pages, f, |pages| - 1) == before && before + ItemsIn(pages[|pages| - 1], f) == Kept(plan[f].rows)
  {
    before := Delivered(plan, tokens[|pages| - 1], f);
    DeliveredSoFar(plan, z, tokens, pages, ns, |pages| - 1, f);
    LastAnswer(plan, z, tokens, pages, ns, f);
  }

  lemma LastAnswer(plan: seq<Entry>, z: Sizes, tokens: seq<Token>, pages: seq<Response>, ns: seq<nat>, f: nat)
    requires PlanOk(plan) && Exports(plan, z, tokens, pages, ns) && pages[|pages| - 1].next.None? && f < |plan|
    ensures Delivered(plan, tokens[|pages| - 1], f) + ItemsIn(pages[|pages| - 1], f) == Kept(plan[f].rows)
  {
    var k := |pages| - 1;
    assert AnsweredAt(plan, z, tokens, pages, ns, k);
    LastAdds(plan, z, tokens[k], pages[k], ns[k], f);
  }

  lemma LastItems(pages: seq<Response>, f: nat)
    requires pages != []
    ensures ItemsOf(pages, f, |pages|) == ItemsOf(pages, f, |pages| - 1) + ItemsIn(pages[|pages| - 1], f)
  {
  }

  /** Every cursor's byte counter is the exact sum of the encoded responses before it, including the
      one that carried it. */
  lemma {:induction false} CounterExact(plan: seq<Entry>, z: Sizes, tokens: seq<Token>, pages: seq<Response>, ns: seq<nat>, k: nat)
    requires Exports(plan, z, tokens, pages, ns) && k < |pages|
    ensures tokens[k].totalBytes == TotalBytes(pages, k) && tokens[k].pageNumber == k
  {
    if k > 0 {
      CounterExact(plan, z, tokens, pages, ns, k - 1);
      assert AnsweredAt(plan, z, tokens, pages, ns, k - 1) && Presented(tokens, pages, k - 1);
    }
  }
}
