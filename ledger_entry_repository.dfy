/** The declared queries of `LedgerEntryRepository` over the ledger
    collection, and the newest-first ordering its derived queries request. */
module LedgerEntryRepository {
  import opened Common
  import opened Tables
  import opened LedgerEntryDomain

  predicate LiveInFamily(e: LedgerEntry, familyId: Option<Id>) {
    e.familyId == familyId && IsLive(e)
  }

  /** `findByIdAndFamilyIdAndDeletedAtIsNull` */
  function FindLive(rows: seq<Row<LedgerEntry>>, id: Id, familyId: Option<Id>): (r: Option<LedgerEntry>)
    ensures r.Some? <==> Find(rows, id).Some? && LiveInFamily(Find(rows, id).value, familyId)
    ensures r.Some? ==> r == Find(rows, id)
  {
    match Find(rows, id)
    case Some(e) => if LiveInFamily(e, familyId) then Some(e) else None
    case None => None
  }

  /** The filter of the `@Query` range lookup: same family, both bounds
      inclusive (`$gte`, `$lte`), not deleted. */
  predicate InRange(e: LedgerEntry, familyId: Option<Id>, from: Instant, to: Instant) {
    LiveInFamily(e, familyId) && from <= e.occurredAt <= to
  }

  /** `findByFamilyIdAndOccurredAtBetweenAndDeletedAtIsNull` */
  function FindInRange(rows: seq<Row<LedgerEntry>>, familyId: Option<Id>, from: Instant, to: Instant): (r: seq<Row<LedgerEntry>>)
    ensures forall i :: 0 <= i < |r| ==> r[i] in rows && InRange(r[i].val, familyId, from, to)
    ensures forall i :: 0 <= i < |rows| ==> (InRange(rows[i].val, familyId, from, to) ==> rows[i] in r)
  {
    Select(rows, (e: LedgerEntry) => InRange(e, familyId, from, to))
  }

  /** `findByFamilyIdAndCategoryIdAndOccurredAtBetweenAndDeletedAtIsNull` */
  function FindInRangeForCategory(rows: seq<Row<LedgerEntry>>, familyId: Option<Id>, categoryId: Id,
                                  from: Instant, to: Instant): (r: seq<Row<LedgerEntry>>)
    ensures forall i :: 0 <= i < |r| ==> r[i] in rows && r[i].val.categoryId == categoryId
  {
    Select(rows, (e: LedgerEntry) => e.categoryId == categoryId && InRange(e, familyId, from, to))
  }

  /** The category lookup returns exactly the family range lookup's entries
      of that category. */
  lemma CategoryRangeWithinFamilyRange(rows: seq<Row<LedgerEntry>>, familyId: Option<Id>, categoryId: Id,
                                       from: Instant, to: Instant, x: Row<LedgerEntry>)
    ensures x in FindInRangeForCategory(rows, familyId, categoryId, from, to)
            <==> x in FindInRange(rows, familyId, from, to) && x.val.categoryId == categoryId
  {
    var c := FindInRangeForCategory(rows, familyId, categoryId, from, to);
    var f := FindInRange(rows, familyId, from, to);
    if x in c {
      var i :| 0 <= i < |c| && c[i] == x;
      var j :| 0 <= j < |rows| && rows[j] == x;
      assert InRange(rows[j].val, familyId, from, to);
    }
    if x in f && x.val.categoryId == categoryId {
      var i :| 0 <= i < |f| && f[i] == x;
      var j :| 0 <= j < |rows| && rows[j] == x;
      assert rows[j].val.categoryId == categoryId && InRange(rows[j].val, familyId, from, to);
    }
  }

  /** The filter of the derived paged lookups: family, not deleted and, when
      a type is given, that type. */
  function FindLiveOfFamily(rows: seq<Row<LedgerEntry>>, familyId: Option<Id>, t: Option<TransactionType>): (r: seq<Row<LedgerEntry>>)
    ensures forall i :: 0 <= i < |r| ==> r[i] in rows && LiveInFamily(r[i].val, familyId)
    ensures forall i :: 0 <= i < |r| ==> t.Some? ==> r[i].val.txType == t.value
    ensures forall i :: 0 <= i < |rows| ==>
              (LiveInFamily(rows[i].val, familyId) && (t.None? || rows[i].val.txType == t.value) ==> rows[i] in r)
  {
    Select(rows, (e: LedgerEntry) => LiveInFamily(e, familyId) && (t.None? || e.txType == t.value))
  }

  predicate NewestFirst<T>(s: seq<Row<T>>, key: T -> int) {
    forall i, j :: 0 <= i < j < |s| ==> key(s[i].val) >= key(s[j].val)
  }

  function InsertByKey<T>(x: Row<T>, s: seq<Row<T>>, key: T -> int): (r: seq<Row<T>>)
    requires NewestFirst(s, key)
    ensures NewestFirst(r, key)
    ensures |r| == |s| + 1
    ensures r[0] == x || (s != [] && r[0] == s[0])
    ensures multiset(r) == multiset(s) + multiset{x}
  {
    if s == [] || key(s[0].val) <= key(x.val) then
      PrependNewest(x, s, key);
      assert multiset([x] + s) == multiset{x} + multiset(s);
      [x] + s
    else
      TailNewest(s, key);
      var t := InsertByKey(x, s[1..], key);
      assert s == [s[0]] + s[1..];
      assert multiset(s) == multiset{s[0]} + multiset(s[1..]);
      PrependNewest(s[0], t, key);
      assert multiset([s[0]] + t) == multiset{s[0]} + multiset(t);
      [s[0]] + t
  }

  lemma TailNewest<T>(s: seq<Row<T>>, key: T -> int)
    requires s != [] && NewestFirst(s, key)
    ensures NewestFirst(s[1..], key)
  {
    forall i, j | 0 <= i < j < |s| - 1 ensures key(s[1..][i].val) >= key(s[1..][j].val) {
      assert s[1..][i] == s[i + 1] && s[1..][j] == s[j + 1];
    }
  }

  lemma PrependNewest<T>(y: Row<T>, t: seq<Row<T>>, key: T -> int)
    requires NewestFirst(t, key) && (t != [] ==> key(t[0].val) <= key(y.val))
    ensures NewestFirst([y] + t, key)
  {
    var r := [y] + t;
    forall i, j | 0 <= i < j < |r| ensures key(r[i].val) >= key(r[j].val) {
      if i == 0 && j > 1 {
        assert key(t[0].val) >= key(t[j - 1].val);
      }
    }
  }

  /** `ORDER BY key DESC`: the rows reordered so the key never increases;
      rows with equal keys keep their table order. */
  function SortNewestFirst<T>(s: seq<Row<T>>, key: T -> int): (r: seq<Row<T>>)
    ensures NewestFirst(r, key)
    ensures multiset(r) == multiset(s)
    ensures |r| == |s|
  {
    if s == [] then []
    else
      assert s == [s[0]] + s[1..];
      InsertByKey(s[0], SortNewestFirst(s[1..], key), key)
  }

  /** The first `n` of the rows sorted newest first (`sort(...).limit(n)`). */
  function Newest<T>(s: seq<Row<T>>, key: T -> int, n: nat): seq<Row<T>> {
    var sorted := SortNewestFirst(s, key);
    sorted[..Min(n, |sorted|)]
  }

  lemma PrefixMultiset<X>(s: seq<X>, m: nat)
    requires m <= |s|
    ensures multiset(s[..m]) <= multiset(s)
    ensures m == |s| ==> multiset(s[..m]) == multiset(s)
  {
    assert s == s[..m] + s[m..];
  }

  /** An element of `s` missing from its first `m` sits at or after `m`. */
  lemma LeftOutOfPrefix<X>(s: seq<X>, m: nat, x: X) returns (j: nat)
    requires m <= |s|
    requires x in multiset(s) - multiset(s[..m])
    ensures m <= j < |s| && s[j] == x
  {
    assert s == s[..m] + s[m..];
    assert multiset(s) == multiset(s[..m]) + multiset(s[m..]);
    assert x in s[m..];
    var k :| 0 <= k < |s[m..]| && s[m..][k] == x;
    j := m + k;
  }

  /** The `n` newest rows are newest first, drawn from the rows, and all of
      them when there are no more than `n`. */
  lemma NewestShape<T>(s: seq<Row<T>>, key: T -> int, n: nat)
    ensures var r := Newest(s, key, n);
      |r| == Min(n, |s|)
      && NewestFirst(r, key)
      && multiset(r) <= multiset(s)
      && (|s| <= n ==> multiset(r) == multiset(s))
  {
    var sorted := SortNewestFirst(s, key);
    PrefixMultiset(sorted, Min(n, |sorted|));
  }

  /** No row left out of the `n` newest has a larger key than the last one
      kept. */
  lemma NewestLeftOut<T>(s: seq<Row<T>>, key: T -> int, n: nat, x: Row<T>)
    requires n > 0
    requires x in multiset(s) - multiset(Newest(s, key, n))
    ensures var r := Newest(s, key, n);
      |r| == n && key(x.val) <= key(r[n - 1].val)
  {
    var sorted := SortNewestFirst(s, key);
    var m := Min(n, |sorted|);
    var j := LeftOutOfPrefix(sorted, m, x);
    assert key(sorted[m - 1].val) >= key(sorted[j].val);
  }

  function OccurredAt(e: LedgerEntry): int { e.occurredAt }

  /** `findTop5ByFamilyIdAndDeletedAtIsNullOrderByOccurredAtDesc` */
  function FindTop5(rows: seq<Row<LedgerEntry>>, familyId: Option<Id>): (r: seq<Row<LedgerEntry>>)
    ensures |r| == Min(5, |FindLiveOfFamily(rows, familyId, None)|)
    ensures NewestFirst(r, OccurredAt)
  {
    Newest(FindLiveOfFamily(rows, familyId, None), OccurredAt, 5)
  }

  /** The top-5 lookup returns at most five live entries of the family,
      newest first, and no live entry it leaves out is newer than one it
      returns. */
  lemma Top5Properties(rows: seq<Row<LedgerEntry>>, familyId: Option<Id>)
    ensures var r := FindTop5(rows, familyId);
      |r| <= 5
      && NewestFirst(r, OccurredAt)
      && (forall i :: 0 <= i < |r| ==> r[i] in rows && LiveInFamily(r[i].val, familyId))
      && (|r| < 5 ==> forall i :: 0 <= i < |rows| && LiveInFamily(rows[i].val, familyId) ==> rows[i] in r)
  {
    var live := FindLiveOfFamily(rows, familyId, None);
    var r := FindTop5(rows, familyId);
    NewestShape(live, OccurredAt, 5);
    forall i | 0 <= i < |r| ensures r[i] in rows && LiveInFamily(r[i].val, familyId) {
      assert r[i] in multiset(r);
      assert r[i] in multiset(live);
    }
    if |r| < 5 {
      forall i | 0 <= i < |rows| && LiveInFamily(rows[i].val, familyId) ensures rows[i] in r {
        assert rows[i] in live;
        assert rows[i] in multiset(live);
      }
    }
  }

  /** A live entry of the family that the top-5 lookup leaves out is no newer
      than the fifth one it returns. */
  lemma Top5LeftOut(rows: seq<Row<LedgerEntry>>, familyId: Option<Id>, x: Row<LedgerEntry>)
    requires x in rows && LiveInFamily(x.val, familyId) && x !in FindTop5(rows, familyId)
    ensures var r := FindTop5(rows, familyId);
      |r| == 5 && x.val.occurredAt <= r[4].val.occurredAt
  {
    var live := FindLiveOfFamily(rows, familyId, None);
    var i :| 0 <= i < |rows| && rows[i] == x;
    assert x in live;
    assert x in multiset(live) - multiset(FindTop5(rows, familyId));
    NewestLeftOut(live, OccurredAt, 5, x);
  }


  /** Spring's `PageRequest.of(page, size)`: rejects a negative page index or
      a size below one. A full page holds `size` elements, the last page what
      remains, and a page past the end nothing. */
  function PageOf<T>(sorted: seq<T>, page: int, size: int): (r: Result<seq<T>>)
    ensures r.Ok? <==> page >= 0 && size >= 1
    ensures r.Ok? ==> |r.value| == Max(0, Min(size, |sorted| - page * size))
    ensures r.Ok? ==> forall i :: 0 <= i < |r.value| ==> r.value[i] == sorted[page * size + i]
    ensures r.Ok? && page * size + size <= |sorted| ==> r.value == sorted[page * size..page * size + size]
  {
    if page < 0 then Err("Page index must not be less than zero")
    else if size < 1 then Err("Page size must not be less than one")
    else
      var lo := Min(page * size, |sorted|);
      var hi := Min(page * size + size, |sorted|);
      Ok(sorted[lo..hi])
  }
}
