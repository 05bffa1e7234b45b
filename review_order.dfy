/**
 * The `ORDER BY` and `LIMIT … OFFSET …` clauses of the review listings.
 * SQL fixes the order only up to ties in the sort key, so an ordering is
 * specified as "sorted by the key and a permutation of the rows"; `Sort` is one
 * such ordering.
 */
module ReviewOrder {
  import opened Common
  import opened Schema

  /** The `ORDER BY` lists a listing can use. */
  datatype Ordering =
    | NewestFirst       // r.created_at DESC
    | MostHelpfulFirst  // r.helpful_count DESC, r.created_at DESC
    | HighestRatedFirst // r.rating DESC, r.created_at DESC

  /** `a` may be listed before `b`: a total preorder on rows. */
  predicate Before(order: Ordering, a: Review, b: Review) {
    match order
    case NewestFirst => a.createdAt >= b.createdAt
    case MostHelpfulFirst =>
      a.helpfulCount > b.helpfulCount || (a.helpfulCount == b.helpfulCount && a.createdAt >= b.createdAt)
    case HighestRatedFirst =>
      a.rating > b.rating || (a.rating == b.rating && a.createdAt >= b.createdAt)
  }

  lemma BeforeTotal(order: Ordering, a: Review, b: Review)
    ensures Before(order, a, b) || Before(order, b, a)
  {
  }

  lemma BeforeTransitive(order: Ordering, a: Review, b: Review, c: Review)
    requires Before(order, a, b) && Before(order, b, c)
    ensures Before(order, a, c)
  {
  }

  predicate Sorted(order: Ordering, rows: seq<Review>) {
    forall i, j :: 0 <= i < j < |rows| ==> Before(order, rows[i], rows[j])
  }

  /** `x` placed before the first row it may precede. */
  function Insert(order: Ordering, x: Review, rows: seq<Review>): (r: seq<Review>)
    requires Sorted(order, rows)
    ensures multiset(r) == multiset(rows) + multiset{x}
    ensures Sorted(order, r)
    decreases |rows|
  {
    if rows == [] then [x]
    else if Before(order, x, rows[0]) then
      BeforeAllOfSorted(order, x, rows);
      [x] + rows
    else
      assert Sorted(order, rows[1..]);
      var rest := Insert(order, x, rows[1..]);
      BeforeTotal(order, x, rows[0]);
      HeadBeforeAll(order, rows, x, rest);
      assert rows == [rows[0]] + rows[1..];
      [rows[0]] + rest
  }

  /** A row that may precede the head of sorted rows may precede all of them. */
  lemma BeforeAllOfSorted(order: Ordering, x: Review, rows: seq<Review>)
    requires Sorted(order, rows) && rows != [] && Before(order, x, rows[0])
    ensures forall j :: 0 <= j < |rows| ==> Before(order, x, rows[j])
  {
    forall j | 0 <= j < |rows| ensures Before(order, x, rows[j]) {
      if j > 0 { BeforeTransitive(order, x, rows[0], rows[j]); }
    }
  }

  /** The head of sorted rows may precede every row of the rest with `x` added, when it may precede `x`. */
  lemma HeadBeforeAll(order: Ordering, rows: seq<Review>, x: Review, rest: seq<Review>)
    requires Sorted(order, rows) && rows != [] && Before(order, rows[0], x)
    requires multiset(rest) == multiset(rows[1..]) + multiset{x}
    ensures forall j :: 0 <= j < |rest| ==> Before(order, rows[0], rest[j])
  {
    forall j | 0 <= j < |rest| ensures Before(order, rows[0], rest[j]) {
      assert rest[j] in multiset(rest);
      if rest[j] != x {
        assert rest[j] in multiset(rows[1..]);
        var k :| 0 <= k < |rows[1..]| && rows[1..][k] == rest[j];
        assert rows[k + 1] == rest[j];
      }
    }
  }

  /** The rows in an order the `ORDER BY` list allows. */
  function Sort(order: Ordering, rows: seq<Review>): (r: seq<Review>)
    ensures multiset(r) == multiset(rows)
    ensures Sorted(order, r)
    decreases |rows|
  {
    if rows == [] then []
    else
      assert rows == [rows[0]] + rows[1..];
      Insert(order, rows[0], Sort(order, rows[1..]))
  }

  /** Sorting keeps exactly the rows it was given. */
  lemma SortKeepsRows(order: Ordering, rows: seq<Review>, x: Review)
    ensures x in Sort(order, rows) <==> x in rows
  {
    assert x in Sort(order, rows) <==> x in multiset(Sort(order, rows));
    assert x in rows <==> x in multiset(rows);
  }


  const NegativeOffsetMessage := "OFFSET must not be negative"
  const NegativeLimitMessage := "LIMIT must not be negative"

  /**
   * `LIMIT limit OFFSET offset`: at most `limit` rows, skipping the first
   * `offset`; a negative value is an error of the database.
   */
  function Page<T>(rows: seq<T>, limit: int, offset: int): (r: Result<seq<T>>)
    ensures r.Err? <==> limit < 0 || offset < 0
    ensures r.Ok? ==> |r.value| <= limit
    ensures r.Ok? ==> |r.value| == if offset >= |rows| then 0 else Min(limit, |rows| - offset)
    ensures r.Ok? ==> forall i :: 0 <= i < |r.value| ==> offset + i < |rows| && r.value[i] == rows[offset + i]
  {
    if offset < 0 then Err(NegativeOffsetMessage)
    else if limit < 0 then Err(NegativeLimitMessage)
    else if offset >= |rows| then Ok([])
    else Ok(rows[offset..offset + Min(limit, |rows| - offset)])
  }

  function Min(a: int, b: int): int {
    if a <= b then a else b
  }

  /** Consecutive pages cover the sorted rows without gap or overlap. */
  lemma {:induction false} ConsecutivePages<T>(rows: seq<T>, limit: nat, offset: nat)
    requires offset + limit <= |rows|
    ensures Page(rows, limit, offset).Ok? && Page(rows, limit, offset + limit).Ok?
    ensures Page(rows, limit, offset).value + Page(rows, limit, offset + limit).value
         == rows[offset..offset + limit + Min(limit, |rows| - offset - limit)]
  {
    var first := Page(rows, limit, offset).value;
    var second := Page(rows, limit, offset + limit).value;
    var whole := rows[offset..offset + limit + Min(limit, |rows| - offset - limit)];
    assert |first| == limit;
    assert |first + second| == |whole|;
    forall i | 0 <= i < |whole| ensures (first + second)[i] == whole[i] {
      if i < limit {
        assert (first + second)[i] == first[i] == rows[offset + i];
      } else {
        assert (first + second)[i] == second[i - limit] == rows[offset + limit + (i - limit)];
      }
    }
  }

  /** A page of sorted rows is the window from `offset` of all the rows in that order. */
  lemma SortedWindow(order: Ordering, rows: seq<Review>, limit: int, offset: int)
    requires Page(Sort(order, rows), limit, offset).Ok?
    ensures var sorted := Sort(order, rows);
      var page := Page(sorted, limit, offset).value;
      && |page| == (if offset >= |rows| then 0 else Min(limit, |rows| - offset))
      && forall i :: 0 <= i < |page| ==> offset + i < |sorted| && page[i] == sorted[offset + i]
  {
    assert |multiset(Sort(order, rows))| == |multiset(rows)|;
  }

  /** A page of sorted rows is itself sorted and holds only rows it was given; sorting keeps the row count. */
  lemma SortedPage(order: Ordering, rows: seq<Review>, limit: int, offset: int)
    requires Page(Sort(order, rows), limit, offset).Ok?
    ensures |Sort(order, rows)| == |rows|
    ensures var page := Page(Sort(order, rows), limit, offset).value;
      && Sorted(order, page)
      && forall x :: x in page ==> x in rows
  {
    var sorted := Sort(order, rows);
    assert |multiset(sorted)| == |multiset(rows)|;
    var page := Page(sorted, limit, offset).value;
    forall i, j | 0 <= i < j < |page| ensures Before(order, page[i], page[j]) {
      assert page[i] == sorted[offset + i] && page[j] == sorted[offset + j];
    }
    forall x | x in page ensures x in rows {
      var i :| 0 <= i < |page| && page[i] == x;
      assert x == sorted[offset + i];
      SortKeepsRows(order, rows, x);
    }
  }
}
