/** Sums of minor amounts over a list of ledger entries, the integer folds
    behind the budget status and the reports (`mapToLong(...).sum()`,
    `groupingBy(..., summingLong(...))`, and the accumulation loops). Sums are
    unbounded integers. */
module LedgerTotals {
  import opened Common
  import opened Tables
  import opened LedgerEntryDomain

  function SumMinor(rows: seq<Row<LedgerEntry>>): int {
    if rows == [] then 0 else rows[0].val.amount.minor + SumMinor(rows[1..])
  }

  predicate NonNegativeAmounts(rows: seq<Row<LedgerEntry>>) {
    forall i :: 0 <= i < |rows| ==> rows[i].val.amount.minor >= 0
  }

  lemma {:induction false} SumAppend(a: seq<Row<LedgerEntry>>, b: seq<Row<LedgerEntry>>)
    ensures SumMinor(a + b) == SumMinor(a) + SumMinor(b)
  {
    if a == [] {
      assert a + b == b;
    } else {
      SumAppend(a[1..], b);
      assert (a + b)[1..] == a[1..] + b;
    }
  }

  /** Every entry falls on exactly one side of a condition, so the two sides'
      sums add up to the whole. */
  lemma {:induction false} SumSplit(rows: seq<Row<LedgerEntry>>, p: LedgerEntry -> bool, notP: LedgerEntry -> bool)
    requires forall e :: notP(e) == !p(e)
    ensures SumMinor(Select(rows, p)) + SumMinor(Select(rows, notP)) == SumMinor(rows)
  {
    if rows != [] {
      SumSplit(rows[1..], p, notP);
    }
  }

  /** The running sum of a selection, one entry further. */
  lemma SumSelectSnoc(rows: seq<Row<LedgerEntry>>, x: Row<LedgerEntry>, p: LedgerEntry -> bool)
    ensures SumMinor(Select(rows + [x], p))
         == SumMinor(Select(rows, p)) + (if p(x.val) then x.val.amount.minor else 0)
  {
    SelectSnoc(rows, x, p);
    SumAppend(Select(rows, p), if p(x.val) then [x] else []);
  }

  /** With no negative amount, a selection sums to between zero and the
      total. */
  lemma {:induction false} SelectedSumBounded(rows: seq<Row<LedgerEntry>>, p: LedgerEntry -> bool)
    requires NonNegativeAmounts(rows)
    ensures 0 <= SumMinor(Select(rows, p)) <= SumMinor(rows)
  {
    if rows != [] {
      SelectedSumBounded(rows[1..], p);
    }
  }

  /** The sum of the entries whose key (category, month, ...) is `k`. */
  function KeySum<K(==)>(rows: seq<Row<LedgerEntry>>, key: LedgerEntry -> K, k: K): int {
    SumMinor(Select(rows, (e: LedgerEntry) => key(e) == k))
  }

  lemma KeySumCons<K>(rows: seq<Row<LedgerEntry>>, key: LedgerEntry -> K, k: K)
    requires rows != []
    ensures KeySum(rows, key, k)
         == (if key(rows[0].val) == k then rows[0].val.amount.minor else 0) + KeySum(rows[1..], key, k)
  {
  }

  lemma KeySumEmpty<K>(key: LedgerEntry -> K, k: K)
    ensures KeySum([], key, k) == 0
  {
  }

  /** The running per-key sum, one entry further. */
  lemma {:induction false} KeySumSnoc<K>(rows: seq<Row<LedgerEntry>>, x: Row<LedgerEntry>, key: LedgerEntry -> K, k: K)
    ensures KeySum(rows + [x], key, k)
         == KeySum(rows, key, k) + (if key(x.val) == k then x.val.amount.minor else 0)
  {
    if rows == [] {
      assert rows + [x] == [x];
      KeySumCons([x], key, k);
    } else {
      KeySumSnoc(rows[1..], x, key, k);
      KeySumCons(rows, key, k);
      KeySumCons(rows + [x], key, k);
      assert (rows + [x])[1..] == rows[1..] + [x];
    }
  }

  /** Some entry has key `k`. */
  predicate HasKey<K(==)>(rows: seq<Row<LedgerEntry>>, key: LedgerEntry -> K, k: K) {
    exists i :: 0 <= i < |rows| && key(rows[i].val) == k
  }

  lemma HasKeySnoc<K>(rows: seq<Row<LedgerEntry>>, x: Row<LedgerEntry>, key: LedgerEntry -> K, k: K)
    ensures HasKey(rows + [x], key, k) <==> HasKey(rows, key, k) || key(x.val) == k
  {
    if HasKey(rows, key, k) {
      var i :| 0 <= i < |rows| && key(rows[i].val) == k;
      assert (rows + [x])[i] == rows[i];
    }
    if HasKey(rows + [x], key, k) {
      var i :| 0 <= i < |rows + [x]| && key((rows + [x])[i].val) == k;
      if i < |rows| {
        assert (rows + [x])[i] == rows[i];
      }
    }
    assert (rows + [x])[|rows|] == x;
  }

  /** A key no entry has sums to zero. */
  lemma {:induction false} KeySumAbsent<K>(rows: seq<Row<LedgerEntry>>, key: LedgerEntry -> K, k: K)
    requires !HasKey(rows, key, k)
    ensures KeySum(rows, key, k) == 0
  {
    if rows != [] {
      KeySumAbsent(rows[1..], key, k);
      KeySumCons(rows, key, k);
    }
  }

  function CategoryOf(e: LedgerEntry): Id { e.categoryId }

  /** The sum of the entries booked on one category. */
  function CategorySum(rows: seq<Row<LedgerEntry>>, categoryId: Id): int {
    KeySum(rows, CategoryOf, categoryId)
  }

  /** `getOrDefault(key, default)` */
  function GetOrDefault<K, V>(m: map<K, V>, k: K, d: V): V {
    if k in m then m[k] else d
  }

  /** `groupingBy(getCategoryId, summingLong(minor))`: category id to the
      sum of its entries, one key per category that occurs. */
  function GroupByCategory(rows: seq<Row<LedgerEntry>>): map<Id, int> {
    if rows == [] then map[]
    else
      var m := GroupByCategory(rows[1..]);
      var c := rows[0].val.categoryId;
      m[c := rows[0].val.amount.minor + GetOrDefault(m, c, 0)]
  }

  /** The grouped map holds exactly the categories that occur. */
  lemma {:induction false} GroupByCategoryKeys(rows: seq<Row<LedgerEntry>>, categoryId: Id)
    ensures categoryId in GroupByCategory(rows) <==> exists i :: 0 <= i < |rows| && rows[i].val.categoryId == categoryId
  {
    if rows != [] {
      GroupByCategoryKeys(rows[1..], categoryId);
      if categoryId in GroupByCategory(rows[1..]) {
        var i :| 0 <= i < |rows[1..]| && rows[1..][i].val.categoryId == categoryId;
        assert rows[i + 1].val.categoryId == categoryId;
      }
      if exists i :: 0 <= i < |rows| && rows[i].val.categoryId == categoryId {
        var i :| 0 <= i < |rows| && rows[i].val.categoryId == categoryId;
        if i > 0 {
          assert rows[1..][i - 1].val.categoryId == categoryId;
        }
      }
    }
  }

  /** Reading the grouped map with a default of zero gives the category's
      sum, also for a category with no entries. */
  lemma {:induction false} GroupByCategoryIsCategorySum(rows: seq<Row<LedgerEntry>>, categoryId: Id)
    ensures GetOrDefault(GroupByCategory(rows), categoryId, 0) == CategorySum(rows, categoryId)
  {
    if rows != [] {
      GroupByCategoryIsCategorySum(rows[1..], categoryId);
      KeySumCons(rows, CategoryOf, categoryId);
    }
  }

  /** The per-key sums of a list of keys, added up. */
  function SumOverKeys<K(==)>(rows: seq<Row<LedgerEntry>>, key: LedgerEntry -> K, ks: seq<K>): int {
    if ks == [] then 0 else KeySum(rows, key, ks[0]) + SumOverKeys(rows, key, ks[1..])
  }

  predicate Distinct<K(==)>(ks: seq<K>) {
    forall i, j :: 0 <= i < j < |ks| ==> ks[i] != ks[j]
  }

  /** Over distinct keys, the per-key sums add up to the sum of the entries
      whose key is any of them. */
  lemma {:induction false} SumOverDistinctKeys<K>(rows: seq<Row<LedgerEntry>>, key: LedgerEntry -> K, ks: seq<K>)
    requires Distinct(ks)
    ensures SumOverKeys(rows, key, ks) == SumMinor(Select(rows, (e: LedgerEntry) => key(e) in ks))
  {
    if ks == [] {
      SelectNone(rows, (e: LedgerEntry) => key(e) in ks);
    } else {
      var k := ks[0];
      var rest := ks[1..];
      SumOverDistinctKeys(rows, key, rest);
      var inAll := (e: LedgerEntry) => key(e) in ks;
      var isK := (e: LedgerEntry) => key(e) == k;
      var notK := (e: LedgerEntry) => key(e) != k;
      var inRest := (e: LedgerEntry) => key(e) in rest;
      var all := Select(rows, inAll);
      SumSplit(all, isK, notK);
      assert forall e: LedgerEntry :: isK(e) == (inAll(e) && isK(e));
      SelectSelect(rows, inAll, isK, (e: LedgerEntry) => key(e) == k);
      assert forall e: LedgerEntry :: inRest(e) == (inAll(e) && notK(e)) by {
        assert forall x :: x in rest <==> x in ks && x != k;
      }
      SelectSelect(rows, inAll, notK, inRest);
    }
  }

  lemma {:induction false} SelectNone(rows: seq<Row<LedgerEntry>>, p: LedgerEntry -> bool)
    requires forall e :: !p(e)
    ensures Select(rows, p) == []
  {
    if rows != [] {
      SelectNone(rows[1..], p);
    }
  }

  lemma {:induction false} SelectAll(rows: seq<Row<LedgerEntry>>, p: LedgerEntry -> bool)
    requires forall i :: 0 <= i < |rows| ==> p(rows[i].val)
    ensures Select(rows, p) == rows
  {
    if rows != [] {
      SelectAll(rows[1..], p);
    }
  }

  /** When every entry's key is listed, once, the per-key sums add up to the
      total: grouping neither loses nor double-counts an entry. */
  lemma SumOverCoveringKeys<K>(rows: seq<Row<LedgerEntry>>, key: LedgerEntry -> K, ks: seq<K>)
    requires Distinct(ks)
    requires forall i :: 0 <= i < |rows| ==> key(rows[i].val) in ks
    ensures SumOverKeys(rows, key, ks) == SumMinor(rows)
  {
    SumOverDistinctKeys(rows, key, ks);
    SelectAll(rows, (e: LedgerEntry) => key(e) in ks);
  }

  /** With distinct keys and no negative amount, the per-key sums never add
      up to more than the total. */
  lemma DistinctKeySumsBounded<K>(rows: seq<Row<LedgerEntry>>, key: LedgerEntry -> K, ks: seq<K>)
    requires Distinct(ks) && NonNegativeAmounts(rows)
    ensures 0 <= SumOverKeys(rows, key, ks) <= SumMinor(rows)
  {
    SumOverDistinctKeys(rows, key, ks);
    SelectedSumBounded(rows, (e: LedgerEntry) => key(e) in ks);
  }
}
