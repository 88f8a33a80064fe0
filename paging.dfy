/**
 * Client-side pagination: the 1-based, ten-per-page pages of the traders, files and products
 * lists, and the 0-based, `rowsPerPage` pages of the customer table.
 */
module Paging {
  import opened Seqs

  /** `tradersPerPage`, `filesPerPage` and `productsPerPage`. */
  const PageSize: nat := 10

  /** `Math.ceil(n / 10)`. */
  function TotalPages(n: nat): (r: nat)
    ensures r * PageSize >= n
    ensures r == 0 || (r - 1) * PageSize < n
    ensures r == 0 <==> n == 0
  {
    (n + PageSize - 1) / PageSize
  }

  /** `items.slice((p - 1) * 10, p * 10)` for the 1-based page number `p`. */
  function Page<T>(items: seq<T>, p: int): (r: seq<T>)
    requires p >= 1
    ensures |r| <= PageSize
    ensures r == [] || (p - 1) * PageSize + |r| <= |items|
    ensures forall k :: 0 <= k < |r| ==> r[k] == items[(p - 1) * PageSize + k]
    ensures r != [] <==> p <= TotalPages(|items|)
    ensures p < TotalPages(|items|) ==> |r| == PageSize
    ensures |r| == if |items| <= (p - 1) * PageSize then 0
                   else if |items| - (p - 1) * PageSize < PageSize then |items| - (p - 1) * PageSize
                   else PageSize
  {
    Slice(items, (p - 1) * PageSize, p * PageSize)
  }

  /** The pages 1..k, one after the other. */
  function FirstPages<T>(items: seq<T>, k: nat): seq<T>
    decreases k
  {
    if k == 0 then [] else FirstPages(items, k - 1) + Page(items, k)
  }

  /** Pages 1..k together are the first `min(10 k, |items|)` items. */
  lemma {:induction false} FirstPagesArePrefix<T>(items: seq<T>, k: nat)
    ensures FirstPages(items, k) == items[..if k * PageSize < |items| then k * PageSize else |items|]
    decreases k
  {
    if k > 0 {
      FirstPagesArePrefix(items, k - 1);
    }
  }

  /** Paging loses and repeats nothing: the pages 1..totalPages concatenate to the list. */
  lemma PagesCoverList<T>(items: seq<T>)
    ensures FirstPages(items, TotalPages(|items|)) == items
  {
    FirstPagesArePrefix(items, TotalPages(|items|));
  }

  /** `items.slice(page * rows, page * rows + rows)` for the 0-based page of the customer table. */
  function Rows<T>(items: seq<T>, page: nat, rows: nat): (r: seq<T>)
    ensures |r| <= rows
    ensures r == [] || page * rows + |r| <= |items|
    ensures forall k :: 0 <= k < |r| ==> r[k] == items[page * rows + k]
    ensures page * rows + rows <= |items| ==> |r| == rows
    ensures |r| == if |items| <= page * rows then 0
                   else if |items| - page * rows < rows then |items| - page * rows
                   else rows
  {
    Slice(items, page * rows, page * rows + rows)
  }

  /** The table's pages 0..k-1, one after the other. */
  function FirstRows<T>(items: seq<T>, k: nat, rows: nat): seq<T>
    decreases k
  {
    if k == 0 then [] else FirstRows(items, k - 1, rows) + Rows(items, k - 1, rows)
  }

  /** The table's pages 0..k-1 together are the first `min(k rows, |items|)` rows. */
  lemma {:induction false} FirstRowsArePrefix<T>(items: seq<T>, k: nat, rows: nat)
    ensures FirstRows(items, k, rows) == items[..if k * rows < |items| then k * rows else |items|]
    decreases k
  {
    if k > 0 {
      FirstRowsArePrefix(items, k - 1, rows);
    }
  }

  /** With at least one row per page, the table's `ceil(n / rows)` pages give back the whole list. */
  lemma RowsCoverList<T>(items: seq<T>, rows: nat)
    requires rows > 0
    ensures FirstRows(items, (|items| + rows - 1) / rows, rows) == items
  {
    var k := (|items| + rows - 1) / rows;
    assert k * rows >= |items| by {
      assert (|items| + rows - 1) % rows < rows;
    }
    FirstRowsArePrefix(items, k, rows);
  }
}
