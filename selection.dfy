/**
 * The parent pool selector: the records matching the fitness query, sorted
 * by `sort_pool` when a sort field is given, and cut by a slice
 * `parents[:limit]` when a limit is given.
 */
module Selection {
  import opened Wrappers
  import opened Schema

  /** `record_table.search(query)`: every matching record, each as often as
      the table holds it, in table order. */
  function Search(table: seq<Record>, query: Record -> bool): (r: seq<Record>)
    ensures |r| <= |table|
    ensures forall x :: x in r <==> x in table && query(x)
    ensures multiset(r) <= multiset(table)
    ensures forall x :: multiset(r)[x] == if query(x) then multiset(table)[x] else 0
    ensures Subsequence(r, table)
  {
    if table == [] then []
    else
      var rest := Search(table[1..], query);
      assert table == [table[0]] + table[1..];
      if query(table[0]) then [table[0]] + rest else rest
  }

  /** `a` is `b` with some of its elements removed, the rest in their order. */
  predicate Subsequence<T(==)>(a: seq<T>, b: seq<T>)
    decreases |b|
  {
    if a == [] then true
    else if b == [] then false
    else (a[0] == b[0] && Subsequence(a[1..], b[1..])) || Subsequence(a, b[1..])
  }

  /** Every record of the pool has the field. */
  predicate AllHave(pool: seq<Record>, field: string)
  {
    forall i :: 0 <= i < |pool| ==> field in pool[i]
  }

  /** The order `sorted` puts two keys in: ascending, or descending when
      `reverse` is set. */
  predicate InOrder(a: real, b: real, ascending: bool)
  {
    if ascending then a <= b else b <= a
  }

  ghost predicate SortedBy(s: seq<Record>, field: string, ascending: bool)
    requires AllHave(s, field)
  {
    forall i, j :: 0 <= i < j < |s| ==> InOrder(s[i][field], s[j][field], ascending)
  }

  /** Inserts `x` before the first record it may precede, that is, before
      every record whose key equals its own: stable insertion. */
  function Insert(x: Record, s: seq<Record>, field: string, ascending: bool): (r: seq<Record>)
    requires field in x && AllHave(s, field)
    ensures AllHave(r, field)
    ensures multiset(r) == multiset(s) + multiset{x}
  {
    if s == [] || InOrder(x[field], s[0][field], ascending) then [x] + s
    else
      assert s == [s[0]] + s[1..];
      [s[0]] + Insert(x, s[1..], field, ascending)
  }

  lemma {:induction false} InsertSorted(x: Record, s: seq<Record>, field: string, ascending: bool)
    requires field in x && AllHave(s, field) && SortedBy(s, field, ascending)
    ensures SortedBy(Insert(x, s, field, ascending), field, ascending)
  {
    if s == [] || InOrder(x[field], s[0][field], ascending) {
    } else {
      var rest := Insert(x, s[1..], field, ascending);
      InsertSorted(x, s[1..], field, ascending);
      assert s == [s[0]] + s[1..];
      forall j | 0 <= j < |rest| ensures InOrder(s[0][field], rest[j][field], ascending) {
        assert rest[j] in multiset(rest);
        assert rest[j] in s[1..] || rest[j] == x;
      }
    }
  }

  /** The stable sort of the pool by `field`. */
  function SortBy(pool: seq<Record>, field: string, ascending: bool): (r: seq<Record>)
    requires AllHave(pool, field)
    ensures AllHave(r, field)
    ensures SortedBy(r, field, ascending)
    ensures multiset(r) == multiset(pool)
  {
    if pool == [] then []
    else
      assert pool == [pool[0]] + pool[1..];
      var rest := SortBy(pool[1..], field, ascending);
      InsertSorted(pool[0], rest, field, ascending);
      Insert(pool[0], rest, field, ascending)
  }

  /** The records of `s` whose `field` equals `k`, in their order in `s`. */
  function KeyRun(s: seq<Record>, field: string, k: real): seq<Record>
    requires AllHave(s, field)
  {
    if s == [] then []
    else (if s[0][field] == k then [s[0]] else []) + KeyRun(s[1..], field, k)
  }

  lemma {:induction false} InsertKeyRun(x: Record, s: seq<Record>, field: string, ascending: bool, k: real)
    requires field in x && AllHave(s, field)
    ensures KeyRun(Insert(x, s, field, ascending), field, k)
         == if x[field] == k then [x] + KeyRun(s, field, k) else KeyRun(s, field, k)
  {
    if s == [] || InOrder(x[field], s[0][field], ascending) {
      assert ([x] + s)[1..] == s;
    } else {
      var r := Insert(x, s, field, ascending);
      InsertKeyRun(x, s[1..], field, ascending, k);
      assert r[1..] == Insert(x, s[1..], field, ascending);
    }
  }

  /** `sorted` is stable, in both directions: records with equal keys keep
      their relative order. */
  lemma {:induction false} SortStable(pool: seq<Record>, field: string, ascending: bool, k: real)
    requires AllHave(pool, field)
    ensures KeyRun(SortBy(pool, field, ascending), field, k) == KeyRun(pool, field, k)
  {
    if pool != [] {
      SortStable(pool[1..], field, ascending, k);
      InsertKeyRun(pool[0], SortBy(pool[1..], field, ascending), field, ascending, k);
    }
  }

  /**
   * `sort_pool(pool, field, ascending)`: an empty pool is returned as it is;
   * a first record without the field raises `KeyError`, and so does any
   * later one when `sorted` reads its key.
   */
  function SortPool(pool: seq<Record>, field: string, ascending: bool): (r: Result<seq<Record>, Error>)
    ensures pool == [] ==> r == Ok([])
    ensures |pool| > 0 && field !in pool[0] ==> r == Err(KeyError)
    ensures r.Err? <==> !AllHave(pool, field)
    ensures r.Err? ==> r.error == KeyError
    ensures r.Ok? ==> AllHave(r.value, field) && SortedBy(r.value, field, ascending)
    ensures r.Ok? ==> multiset(r.value) == multiset(pool)
    ensures r.Ok? ==> r.value == SortBy(pool, field, ascending)
    ensures r.Ok? ==> forall k :: KeyRun(r.value, field, k) == KeyRun(pool, field, k)
  {
    if |pool| > 0 && field !in pool[0] then Err(KeyError)
    else if !AllHave(pool, field) then Err(KeyError)
    else
      SortStableAll(pool, field, ascending);
      Ok(SortBy(pool, field, ascending))
  }

  /** `SortStable` for every key at once. */
  lemma SortStableAll(pool: seq<Record>, field: string, ascending: bool)
    requires AllHave(pool, field)
    ensures forall k :: KeyRun(SortBy(pool, field, ascending), field, k) == KeyRun(pool, field, k)
  {
    forall k {
      SortStable(pool, field, ascending, k);
    }
  }

  /** Python's `s[:k]`: the first `k` elements, or all but the last `-k`
      when `k` is negative. */
  function SliceTo<T>(s: seq<T>, k: int): (r: seq<T>)
    ensures |r| <= |s| && r == s[..|r|]
    ensures 0 <= k ==> |r| == if k < |s| then k else |s|
    ensures k < 0 ==> |r| == if -k < |s| then |s| + k else 0
  {
    if 0 <= k then (if k < |s| then s[..k] else s)
    else (if -k < |s| then s[..|s| + k] else [])
  }

  /** The parent pool of one `generate_child` call (ga_search.py:126-130). */
  function SelectParents(table: seq<Record>, query: Record -> bool, sortField: Option<string>,
                         ascending: bool, limit: Option<int>): (r: Result<seq<Record>, Error>)
    ensures r.Err? <==> sortField.Some? && !AllHave(Search(table, query), sortField.value)
    ensures r.Ok? ==> multiset(r.value) <= multiset(Search(table, query))
    ensures r.Ok? && sortField.None? ==> IsPrefix(r.value, Search(table, query))
    ensures r.Ok? && sortField.None? && limit.None? ==> r.value == Search(table, query)
    ensures r.Ok? && limit.Some? && limit.value >= 0 ==> |r.value| <= limit.value
    ensures r.Ok? && sortField.Some? ==>
              && AllHave(Search(table, query), sortField.value)
              && AllHave(r.value, sortField.value)
              && SortedBy(r.value, sortField.value, ascending)
              && IsPrefix(r.value, SortBy(Search(table, query), sortField.value, ascending))
    ensures r.Ok? && limit.None? ==> |r.value| == |Search(table, query)|
    ensures r.Ok? && limit.Some? && 0 <= limit.value ==>
              |r.value| == if limit.value < |Search(table, query)| then limit.value else |Search(table, query)|
    ensures r.Ok? && limit.Some? && limit.value < 0 ==>
              |r.value| == if -limit.value < |Search(table, query)| then |Search(table, query)| + limit.value else 0
  {
    var found := Search(table, query);
    match OrderPool(found, sortField, ascending)
    case Err(e) => Err(e)
    case Ok(s) =>
      var cut := if limit.Some? then SliceTo(s, limit.value) else s;
      PrefixKeeps(cut, s, sortField, ascending);
      Ok(cut)
  }

  /** The matches, passed through `sort_pool` when a sort field is given. */
  function OrderPool(found: seq<Record>, sortField: Option<string>, ascending: bool): (r: Result<seq<Record>, Error>)
    ensures r.Err? <==> sortField.Some? && !AllHave(found, sortField.value)
    ensures r.Ok? ==> multiset(r.value) == multiset(found)
    ensures r.Ok? && sortField.None? ==> r.value == found
    ensures r.Ok? && sortField.Some? ==> AllHave(found, sortField.value) && r.value == SortBy(found, sortField.value, ascending)
  {
    if sortField.Some? then SortPool(found, sortField.value, ascending) else Ok(found)
  }

  predicate IsPrefix<T(==)>(a: seq<T>, b: seq<T>)
  {
    |a| <= |b| && a == b[..|a|]
  }

  lemma PrefixMultiset<T>(a: seq<T>, b: seq<T>)
    requires IsPrefix(a, b)
    ensures multiset(a) <= multiset(b)
  {
    assert b == a + b[|a|..];
  }

  /** A prefix of a pool keeps its records, and its order when sorted. */
  lemma PrefixKeeps(a: seq<Record>, b: seq<Record>, sortField: Option<string>, ascending: bool)
    requires IsPrefix(a, b)
    ensures multiset(a) <= multiset(b)
    ensures sortField.Some? && AllHave(b, sortField.value) ==> AllHave(a, sortField.value)
    ensures sortField.Some? && AllHave(b, sortField.value) && SortedBy(b, sortField.value, ascending) ==>
              SortedBy(a, sortField.value, ascending)
  {
    PrefixMultiset(a, b);
    assert forall i :: 0 <= i < |a| ==> a[i] == b[i];
  }

  /** Every selected parent is a record of the table that satisfies the
      fitness query. */
  lemma SelectedParentsMatch(table: seq<Record>, query: Record -> bool, sortField: Option<string>,
                             ascending: bool, limit: Option<int>, x: Record)
    requires SelectParents(table, query, sortField, ascending, limit).Ok?
    requires x in SelectParents(table, query, sortField, ascending, limit).value
    ensures x in table && query(x)
  {
    var ps := SelectParents(table, query, sortField, ascending, limit).value;
    assert x in multiset(ps);
    assert x in multiset(Search(table, query));
  }
}
