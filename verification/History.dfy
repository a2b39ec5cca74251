/** The paged bundle history: a query that limits every branch before it unites them. */
module History {
  import opened Common

  datatype PendingRow = PendingRow(bundle: nat, owner: nat, created: int)

  datatype FinishedRow = FinishedRow(bundle: nat, owner: nat, created: int, finished: int)

  datatype TxRow = TxRow(bundle: nat, tx: nat, owner: nat, received: int)

  datatype Tables = Tables(pending: seq<PendingRow>, finished: seq<FinishedRow>, txs: seq<TxRow>)

  /** One line of the history. */
  datatype Row = Multichain(bundle: nat, time: int) | SingleChain(bundle: nat, tx: nat, time: int)

  function PendingOf(rows: seq<PendingRow>, owner: nat): seq<Row> {
    if rows == [] then []
    else
      var r := rows[|rows| - 1];
      PendingOf(rows[..|rows| - 1], owner) + if r.owner == owner then [Multichain(r.bundle, r.created)] else []
  }

  function FinishedOf(rows: seq<FinishedRow>, owner: nat): seq<Row> {
    if rows == [] then []
    else
      var r := rows[|rows| - 1];
      FinishedOf(rows[..|rows| - 1], owner) + if r.owner == owner then [Multichain(r.bundle, r.finished)] else []
  }

  predicate IsMultichain(t: Tables, bundle: nat) {
    (exists r <- t.pending :: r.bundle == bundle) || (exists r <- t.finished :: r.bundle == bundle)
  }

  /** Transactions of bundles that are neither pending nor finished multichain bundles. */
  function SingleOf(t: Tables, rows: seq<TxRow>, owner: nat): seq<Row> {
    if rows == [] then []
    else
      var r := rows[|rows| - 1];
      SingleOf(t, rows[..|rows| - 1], owner)
      + if r.owner == owner && !IsMultichain(t, r.bundle) then [SingleChain(r.bundle, r.tx, r.received)] else []
  }

  /** Everything the history of an owner lists, in no particular order. */
  function Listed(t: Tables, owner: nat): seq<Row> {
    PendingOf(t.pending, owner) + FinishedOf(t.finished, owner) + SingleOf(t, t.txs, owner)
  }

  function Count(t: Tables, owner: nat): nat {
    |PendingOf(t.pending, owner)| + |FinishedOf(t.finished, owner)| + |SingleOf(t, t.txs, owner)|
  }

  // ---------------------------------------------------------------- what is listed, and at what time

  function PendingAs(row: Row, owner: nat): PendingRow -> nat {
    (r: PendingRow) => if row.Multichain? && r == PendingRow(row.bundle, owner, row.time) then 1 else 0
  }

  function FinishedAs(row: Row, owner: nat): FinishedRow -> nat {
    (r: FinishedRow) =>
      if row.Multichain? && r.bundle == row.bundle && r.owner == owner && r.finished == row.time then 1 else 0
  }

  function TransactionAs(row: Row, owner: nat): TxRow -> nat {
    (r: TxRow) => if row.SingleChain? && r == TxRow(row.bundle, row.tx, owner, row.time) then 1 else 0
  }

  /** A bundle's line stands at its creation while it is pending and at its end once it is finished; a
      transaction's at its receipt, unless its bundle has a line of its own, of whatever owner. */
  lemma ListedExactly(t: Tables, owner: nat, row: Row)
    ensures multiset(Listed(t, owner))[row]
         == Sum(t.pending, PendingAs(row, owner)) + Sum(t.finished, FinishedAs(row, owner))
            + if (exists r <- t.pending :: r.bundle == row.bundle) || (exists r <- t.finished :: r.bundle == row.bundle) then 0
              else Sum(t.txs, TransactionAs(row, owner))
    ensures Count(t, owner) == |Listed(t, owner)|
  {
    PendingCount(t.pending, owner, row);
    FinishedCount(t.finished, owner, row);
    SingleCount(t, t.txs, owner, row);
  }

  lemma {:induction false} PendingCount(rows: seq<PendingRow>, owner: nat, row: Row)
    ensures multiset(PendingOf(rows, owner))[row] == Sum(rows, PendingAs(row, owner))
  {
    if rows != [] {
      PendingCount(rows[..|rows| - 1], owner, row);
    }
  }

  lemma {:induction false} FinishedCount(rows: seq<FinishedRow>, owner: nat, row: Row)
    ensures multiset(FinishedOf(rows, owner))[row] == Sum(rows, FinishedAs(row, owner))
  {
    if rows != [] {
      FinishedCount(rows[..|rows| - 1], owner, row);
    }
  }

  lemma {:induction false} SingleCount(t: Tables, rows: seq<TxRow>, owner: nat, row: Row)
    ensures multiset(SingleOf(t, rows, owner))[row]
         == if (exists r <- t.pending :: r.bundle == row.bundle) || (exists r <- t.finished :: r.bundle == row.bundle) then 0
            else Sum(rows, TransactionAs(row, owner))
  {
    if rows != [] {
      SingleCount(t, rows[..|rows| - 1], owner, row);
    }
  }

  // ---------------------------------------------------------------- ORDER BY and LIMIT

  predicate Before(x: Row, y: Row, descending: bool) {
    if descending then x.time > y.time else x.time < y.time
  }

  predicate Sorted(rows: seq<Row>, descending: bool) {
    forall i, j | 0 <= i < j < |rows| :: Before(rows[i], rows[j], descending)
  }

  predicate DistinctTimes(rows: seq<Row>) {
    forall i, j | 0 <= i < j < |rows| :: rows[i].time != rows[j].time
  }

  /** `out` is a possible answer of `ORDER BY time`. */
  predicate Orders(rows: seq<Row>, descending: bool, out: seq<Row>) {
    && multiset(out) == multiset(rows)
    && forall i, j | 0 <= i < j < |out| :: !Before(out[j], out[i], descending)
  }

  function Take(rows: seq<Row>, n: nat): seq<Row> {
    if n <= |rows| then rows[..n] else rows
  }

  function Drop(rows: seq<Row>, n: nat): seq<Row> {
    if n <= |rows| then rows[n..] else []
  }

  function Slice(rows: seq<Row>, limit: nat, offset: nat): seq<Row> {
    Take(Drop(rows, offset), limit)
  }

  /** `db` is one way a database may answer `ORDER BY time`, ties broken as it pleases. */
  ghost predicate Ordering(db: seq<Row> -> seq<Row>, descending: bool) {
    forall rows :: Orders(rows, descending, db(rows))
  }

  /** Pending and finished bundles, each limited, united and limited again. */
  function MultichainBranch(db: seq<Row> -> seq<Row>, pending: seq<Row>, finished: seq<Row>, n: nat): seq<Row> {
    Take(db(Take(db(pending), n) + Take(db(finished), n)), n)
  }

  /** The query: every branch limited, their union sliced. */
  function Page(db: seq<Row> -> seq<Row>, t: Tables, owner: nat, limit: nat, offset: nat): seq<Row> {
    var n := limit + offset;
    var multichain := MultichainBranch(db, PendingOf(t.pending, owner), FinishedOf(t.finished, owner), n);
    Slice(db(multichain + Take(db(SingleOf(t, t.txs, owner)), n)), limit, offset)
  }

  // ---------------------------------------------------------------- sorting

  function Insert(x: Row, rows: seq<Row>, descending: bool): seq<Row> {
    if rows == [] || Before(x, rows[0], descending) then [x] + rows
    else [rows[0]] + Insert(x, rows[1..], descending)
  }

  function Sort(rows: seq<Row>, descending: bool): seq<Row> {
    if rows == [] then [] else Insert(rows[|rows| - 1], Sort(rows[..|rows| - 1], descending), descending)
  }

  lemma {:induction false} InsertAdds(x: Row, rows: seq<Row>, descending: bool)
    ensures multiset(Insert(x, rows, descending)) == multiset(rows) + multiset{x}
  {
    if rows != [] && !Before(x, rows[0], descending) {
      InsertAdds(x, rows[1..], descending);
      assert rows == [rows[0]] + rows[1..];
    } else {
      assert multiset([x] + rows) == multiset{x} + multiset(rows);
    }
  }

  lemma {:induction false} InsertSorts(x: Row, rows: seq<Row>, descending: bool)
    requires Sorted(rows, descending) && forall r <- rows :: r.time != x.time
    ensures Sorted(Insert(x, rows, descending), descending)
  {
    if rows != [] && !Before(x, rows[0], descending) {
      var rest := Insert(x, rows[1..], descending);
      InsertSorts(x, rows[1..], descending);
      forall r | r in rest ensures Before(rows[0], r, descending) {
        InsertAdds(x, rows[1..], descending);
        assert r in multiset(rest);
        assert r == x || r in rows[1..];
      }
    }
  }

  lemma InsertKeeps(init: seq<Row>, last: Row, sorted: seq<Row>, descending: bool)
    requires DistinctTimes(init + [last]) && Sorted(sorted, descending) && multiset(sorted) == multiset(init)
    ensures Sorted(Insert(last, sorted, descending), descending)
    ensures multiset(Insert(last, sorted, descending)) == multiset(init + [last])
  {
    var rows := init + [last];
    forall r | r in sorted ensures r.time != last.time {
      assert r in multiset(init);
      var i :| 0 <= i < |init| && init[i] == r;
      assert rows[i] == r && rows[|init|] == last;
    }
    InsertAdds(last, sorted, descending);
    InsertSorts(last, sorted, descending);
  }

  lemma {:induction false} SortKeeps(rows: seq<Row>, descending: bool)
    requires DistinctTimes(rows)
    ensures Sorted(Sort(rows, descending), descending)
    ensures multiset(Sort(rows, descending)) == multiset(rows)
  {
    if rows != [] {
      var init, last := rows[..|rows| - 1], rows[|rows| - 1];
      assert rows == init + [last];
      SortKeeps(init, descending);
      InsertKeeps(init, last, Sort(init, descending), descending);
    }
  }

  /** Rows with distinct times have one sorted order only. */
  lemma {:induction false} SortedUnique(a: seq<Row>, b: seq<Row>, descending: bool)
    requires Sorted(a, descending) && Sorted(b, descending) && multiset(a) == multiset(b)
    ensures a == b
  {
    if a != [] {
      assert a[0] in multiset(b) && b[0] in multiset(a);
      assert a[0] == b[0];
      assert a == [a[0]] + a[1..] && b == [b[0]] + b[1..];
      assert multiset(a[1..]) == multiset(a) - multiset{a[0]};
      assert multiset(b[1..]) == multiset(b) - multiset{b[0]};
      SortedUnique(a[1..], b[1..], descending);
    } else {
      assert |a| == |multiset(a)| == |multiset(b)| == |b|;
    }
  }

  lemma DistinctPermuted(a: seq<Row>, b: seq<Row>)
    requires multiset(a) == multiset(b) && DistinctTimes(a)
    ensures DistinctTimes(b)
  {
    forall i, j | 0 <= i < j < |b| ensures b[i].time != b[j].time {
      if b[i].time == b[j].time {
        TwoInMultiset(b, i, j);
        assert b[i] in multiset(a) && b[j] in multiset(a);
        var k :| 0 <= k < |a| && a[k] == b[i];
        var m :| 0 <= m < |a| && a[m] == b[j];
        assert k == m;
        OneInMultiset(a, k);
        assert false;
      }
    }
  }

  lemma TwoInMultiset(s: seq<Row>, i: nat, j: nat)
    requires i < j < |s|
    ensures s[i] == s[j] ==> multiset(s)[s[i]] >= 2
  {
    assert s == s[..j] + [s[j]] + s[j + 1..];
    assert s[i] in s[..j];
  }

  lemma OneInMultiset(s: seq<Row>, k: nat)
    requires k < |s| && DistinctTimes(s)
    ensures multiset(s)[s[k]] == 1
  {
    assert s == s[..k] + [s[k]] + s[k + 1..];
    assert s[k] !in s[..k] && s[k] !in s[k + 1..];
    assert s[k] !in multiset(s[..k]) && s[k] !in multiset(s[k + 1..]);
  }

  /** `ORDER BY` over distinct times is `Sort`. */
  lemma OrdersIsSort(rows: seq<Row>, descending: bool, out: seq<Row>)
    requires DistinctTimes(rows)
    ensures Orders(rows, descending, out) <==> out == Sort(rows, descending)
  {
    SortKeeps(rows, descending);
    if Orders(rows, descending, out) {
      DistinctPermuted(rows, out);
      SortedUnique(out, Sort(rows, descending), descending);
    }
  }

  lemma SortPermuted(a: seq<Row>, b: seq<Row>, descending: bool)
    requires DistinctTimes(a) && multiset(a) == multiset(b)
    ensures Sort(a, descending) == Sort(b, descending)
  {
    DistinctPermuted(a, b);
    SortKeeps(a, descending);
    SortKeeps(b, descending);
    SortedUnique(Sort(a, descending), Sort(b, descending), descending);
  }

  // ---------------------------------------------------------------- limits push down

  function Top(rows: seq<Row>, n: nat, descending: bool): seq<Row> {
    Take(Sort(rows, descending), n)
  }

  /** Inserting cannot bring back what a limit cut off. */
  lemma {:induction false} TakeInsert(x: Row, rows: seq<Row>, n: nat, descending: bool)
    ensures Take(Insert(x, rows, descending), n) == Take(Insert(x, Take(rows, n), descending), n)
    decreases |rows|
  {
    if n == 0 {
      assert Take(Insert(x, rows, descending), n) == [] == Take(Insert(x, Take(rows, n), descending), n);
    } else if n >= |rows| {
      assert Take(rows, n) == rows;
    } else if Before(x, rows[0], descending) {
      assert Take(rows, n)[0] == rows[0];
    } else {
      TakeInsert(x, rows[1..], n - 1, descending);
      assert Take(rows, n)[1..] == Take(rows[1..], n - 1);
      assert Take(Insert(x, rows, descending), n) == [rows[0]] + Take(Insert(x, rows[1..], descending), n - 1);
      assert Take(Insert(x, Take(rows, n), descending), n)
          == [rows[0]] + Take(Insert(x, Take(rows, n)[1..], descending), n - 1);
    }
  }

  lemma {:induction false} SortSorted(rows: seq<Row>, descending: bool)
    requires Sorted(rows, descending)
    ensures Sort(rows, descending) == rows
  {
    SortKeeps(rows, descending);
    SortedUnique(Sort(rows, descending), rows, descending);
  }

  /** Limiting one side of a union to `n` sorted rows leaves its first `n` sorted rows as they were. */
  lemma {:induction false} TopLeft(a: seq<Row>, b: seq<Row>, n: nat, descending: bool)
    requires DistinctTimes(a)
    ensures Top(Top(a, n, descending) + b, n, descending) == Top(a + b, n, descending)
  {
    var top := Top(a, n, descending);
    if b == [] {
      assert top + b == top && a + b == a;
      SortKeeps(a, descending);
      SortSorted(top, descending);
    } else {
      var init, x := b[..|b| - 1], b[|b| - 1];
      TopLeft(a, init, n, descending);
      assert (top + b)[..|top + b| - 1] == top + init && (a + b)[..|a + b| - 1] == a + init;
      TakeInsert(x, Sort(top + init, descending), n, descending);
      TakeInsert(x, Sort(a + init, descending), n, descending);
    }
  }

  lemma TopMembers(a: seq<Row>, n: nat, descending: bool, r: Row)
    requires DistinctTimes(a) && r in Top(a, n, descending)
    ensures r in a
  {
    SortKeeps(a, descending);
    assert r in multiset(a);
  }

  lemma DistinctParts(a: seq<Row>, b: seq<Row>)
    requires DistinctTimes(a + b)
    ensures DistinctTimes(a) && DistinctTimes(b) && DistinctTimes(b + a)
    ensures forall x <- a, y <- b :: x.time != y.time
  {
    assert forall i | 0 <= i < |a| :: (a + b)[i] == a[i];
    assert forall i | 0 <= i < |b| :: (a + b)[|a| + i] == b[i];
    DistinctPermuted(a + b, b + a);
  }

  lemma TopDistinct(a: seq<Row>, b: seq<Row>, n: nat, descending: bool)
    requires DistinctTimes(a + b)
    ensures DistinctTimes(a) && DistinctTimes(b) && DistinctTimes(b + a)
    ensures DistinctTimes(Top(a, n, descending) + b)
  {
    DistinctParts(a, b);
    SortKeeps(a, descending);
    var top := Top(a, n, descending);
    forall i | 0 <= i < |top| ensures top[i] in a {
      TopMembers(a, n, descending, top[i]);
    }
  }

  /** The first `n` rows of a union are those of its branches' first `n` rows. */
  lemma TopUnion(a: seq<Row>, b: seq<Row>, n: nat, descending: bool)
    requires DistinctTimes(a + b)
    ensures Top(Top(a, n, descending) + Top(b, n, descending), n, descending) == Top(a + b, n, descending)
    ensures DistinctTimes(Top(a, n, descending) + Top(b, n, descending))
  {
    var top, other := Top(a, n, descending), Top(b, n, descending);
    TopDistinct(a, b, n, descending);
    TopLeft(a, b, n, descending);
    TopDistinct(top, b, n, descending);
    TopDistinct(b, top, n, descending);
    DistinctPermuted(other + top, top + other);
    SortPermuted(top + b, b + top, descending);
    TopLeft(b, top, n, descending);
    SortPermuted(other + top, top + other, descending);
  }

  lemma TakeDrop(rows: seq<Row>, limit: nat, offset: nat)
    ensures Slice(rows, limit, offset) == Drop(Take(rows, limit + offset), offset)
  {
  }

  /** Slicing the limited union is slicing the union. */
  lemma AllIsSlice(a: seq<Row>, b: seq<Row>, limit: nat, offset: nat, descending: bool)
    requires DistinctTimes(a + b)
    ensures var n := limit + offset;
            Slice(Sort(Top(a, n, descending) + Top(b, n, descending), descending), limit, offset)
            == Slice(Sort(a + b, descending), limit, offset)
  {
    var n := limit + offset;
    TopUnion(a, b, n, descending);
    TakeDrop(Sort(a + b, descending), limit, offset);
    TakeDrop(Sort(Top(a, n, descending) + Top(b, n, descending), descending), limit, offset);
  }

  lemma Sorts(db: seq<Row> -> seq<Row>, descending: bool, rows: seq<Row>)
    requires Ordering(db, descending) && DistinctTimes(rows)
    ensures db(rows) == Sort(rows, descending)
  {
    OrdersIsSort(rows, descending, db(rows));
  }

  lemma MultichainIsTop(db: seq<Row> -> seq<Row>, p: seq<Row>, f: seq<Row>, n: nat, descending: bool)
    requires Ordering(db, descending) && DistinctTimes(p + f)
    ensures MultichainBranch(db, p, f, n) == Top(p + f, n, descending)
  {
    TopDistinct(p, f, n, descending);
    TopUnion(p, f, n, descending);
    Sorts(db, descending, p);
    Sorts(db, descending, f);
    Sorts(db, descending, Top(p, n, descending) + Top(f, n, descending));
  }

  lemma BranchesAreTops(db: seq<Row> -> seq<Row>, p: seq<Row>, f: seq<Row>, s: seq<Row>, n: nat, descending: bool)
    requires Ordering(db, descending) && DistinctTimes(p + f + s)
    ensures db(MultichainBranch(db, p, f, n) + Take(db(s), n))
         == Sort(Top(p + f, n, descending) + Top(s, n, descending), descending)
  {
    TopDistinct(p + f, s, n, descending);
    TopUnion(p + f, s, n, descending);
    MultichainIsTop(db, p, f, n, descending);
    Sorts(db, descending, s);
    Sorts(db, descending, Top(p + f, n, descending) + Top(s, n, descending));
  }

  /** For distinct times, every page is the slice of the whole sorted history. */
  lemma PageIsSlice(db: seq<Row> -> seq<Row>, t: Tables, owner: nat, limit: nat, offset: nat, descending: bool)
    requires Ordering(db, descending) && DistinctTimes(Listed(t, owner))
    ensures Page(db, t, owner, limit, offset) == Slice(Sort(Listed(t, owner), descending), limit, offset)
  {
    var p, f, s := PendingOf(t.pending, owner), FinishedOf(t.finished, owner), SingleOf(t, t.txs, owner);
    BranchesAreTops(db, p, f, s, limit + offset, descending);
    AllIsSlice(p + f, s, limit, offset, descending);
  }

  // ---------------------------------------------------------------- pages

  /** Offset of page `i`. */
  function Start(i: nat, limit: nat): nat {
    i * limit
  }

  /** The first `k` pages of `limit` rows, one after another. */
  function Pages(rows: seq<Row>, limit: nat, k: nat): seq<Row> {
    if k == 0 then [] else Pages(rows, limit, k - 1) + Slice(rows, limit, Start(k - 1, limit))
  }

  lemma {:induction false} PagesArePrefix(rows: seq<Row>, limit: nat, k: nat)
    ensures Pages(rows, limit, k) == Take(rows, Start(k, limit))
  {
    if k != 0 {
      PagesArePrefix(rows, limit, k - 1);
      PrefixGrows(rows, Start(k - 1, limit), limit);
      assert Start(k - 1, limit) + limit == Start(k, limit);
    }
  }

  lemma PrefixGrows(rows: seq<Row>, m: nat, limit: nat)
    ensures Take(rows, m) + Slice(rows, limit, m) == Take(rows, m + limit)
  {
  }

  /** Reading page after page lists the first rows of the history in order, and once as many rows
      were asked for as the count reports, every row of the history exactly once. */
  lemma PagesPartitionHistory(db: seq<Row> -> seq<Row>, t: Tables, owner: nat, limit: nat, k: nat, descending: bool)
    requires Ordering(db, descending) && DistinctTimes(Listed(t, owner))
    ensures PagesOf(db, t, owner, limit, k) == Take(Sort(Listed(t, owner), descending), Start(k, limit))
    ensures Start(k, limit) >= Count(t, owner) ==>
              var all := PagesOf(db, t, owner, limit, k);
              && |all| == Count(t, owner) && multiset(all) == multiset(Listed(t, owner)) && Sorted(all, descending)
  {
    var sorted := Sort(Listed(t, owner), descending);
    PagesOfSorted(db, t, owner, limit, k, descending);
    PagesArePrefix(sorted, limit, k);
    SortKeeps(Listed(t, owner), descending);
    assert |sorted| == |multiset(sorted)| == |multiset(Listed(t, owner))| == |Listed(t, owner)|;
    assert Start(k, limit) == |sorted| ==> sorted[..Start(k, limit)] == sorted;
  }

  /** What a reader gets who asks for `k` pages one after another. */
  function PagesOf(db: seq<Row> -> seq<Row>, t: Tables, owner: nat, limit: nat, k: nat): seq<Row> {
    if k == 0 then []
    else PagesOf(db, t, owner, limit, k - 1) + Page(db, t, owner, limit, Start(k - 1, limit))
  }

  lemma {:induction false} PagesOfSorted(db: seq<Row> -> seq<Row>, t: Tables, owner: nat, limit: nat, k: nat, descending: bool)
    requires Ordering(db, descending) && DistinctTimes(Listed(t, owner))
    ensures PagesOf(db, t, owner, limit, k) == Pages(Sort(Listed(t, owner), descending), limit, k)
  {
    if k != 0 {
      PagesOfSorted(db, t, owner, limit, k - 1, descending);
      PageIsSlice(db, t, owner, limit, Start(k - 1, limit), descending);
    }
  }
}
