/** Page arithmetic (internal/model/pagination.go) against the LIMIT/OFFSET query it drives. */
module Pagination {

  /** Go's quotient, rounded towards zero, plus one page for a positive remainder. */
  function TotalPages(total: nat, pageSize: int): nat
    requires pageSize >= 1
  {
    total / pageSize + (if total % pageSize > 0 then 1 else 0)
  }

  /** The rows of `LIMIT limit OFFSET offset`, a negative offset counting as 0. */
  function Slice<T>(rows: seq<T>, limit: nat, offset: int): (r: seq<T>)
    ensures 0 <= offset && offset + limit <= |rows| ==> |r| == limit
    ensures offset >= |rows| ==> r == []
    ensures limit > 0 && 0 <= offset < |rows| ==> r != []
  {
    var from := if offset < 0 then 0 else if offset > |rows| then |rows| else offset;
    rows[from..if from + limit > |rows| then |rows| else from + limit]
  }

  function Page<T>(rows: seq<T>, page: int, pageSize: nat): seq<T> {
    Slice(rows, pageSize, (page - 1) * pageSize)
  }

  function Pages<T>(rows: seq<T>, pageSize: nat, n: nat): seq<T> {
    if n == 0 then [] else Pages(rows, pageSize, n - 1) + Page(rows, n, pageSize)
  }

  lemma NextOffset(n: nat, pageSize: nat)
    ensures 0 <= n * pageSize && (n + 1) * pageSize == n * pageSize + pageSize
  {
  }

  lemma SliceExtendsPrefix<T>(rows: seq<T>, limit: nat, offset: nat)
    ensures var next := offset + limit;
            (if offset <= |rows| then rows[..offset] else rows) + Slice(rows, limit, offset)
              == if next <= |rows| then rows[..next] else rows
  {
  }

  lemma {:induction false} PagesArePrefix<T>(rows: seq<T>, pageSize: int, n: nat)
    requires pageSize >= 1
    ensures Pages(rows, pageSize, n) == if n * pageSize <= |rows| then rows[..n * pageSize] else rows
  {
    if n > 0 {
      PagesArePrefix(rows, pageSize, n - 1);
      NextOffset(n - 1, pageSize);
      SliceExtendsPrefix(rows, pageSize, (n - 1) * pageSize);
    }
  }

  lemma LastPage(total: nat, pageSize: int)
    requires pageSize >= 1
    ensures var n := TotalPages(total, pageSize); total <= n * pageSize && (n > 0 ==> (n - 1) * pageSize < total)
  {
    var q := total / pageSize;
    assert total == q * pageSize + total % pageSize;
    assert (q + 1) * pageSize == q * pageSize + pageSize;
  }

  lemma {:induction false} PageOffsets(page: nat, n: nat, pageSize: nat)
    requires page >= 1
    ensures page <= n ==> (page - 1) * pageSize <= (n - 1) * pageSize
    ensures page < n ==> (page - 1) * pageSize + pageSize <= (n - 1) * pageSize
    ensures page > n ==> n * pageSize <= (page - 1) * pageSize
    decreases if page <= n then n - page else page - n
  {
    NextOffset(page - 1, pageSize);
    if page < n {
      PageOffsets(page + 1, n, pageSize);
    } else if page > n + 1 {
      NextOffset(page - 2, pageSize);
      PageOffsets(page - 1, n, pageSize);
    }
  }

  /** Pages 1 to TotalPages, put together, are the whole list. */
  lemma PagesCoverList<T>(rows: seq<T>, pageSize: int)
    requires pageSize >= 1
    ensures Pages(rows, pageSize, TotalPages(|rows|, pageSize)) == rows
  {
    var n := TotalPages(|rows|, pageSize);
    LastPage(|rows|, pageSize);
    PagesArePrefix(rows, pageSize, n);
    assert n * pageSize == |rows| ==> rows[..n * pageSize] == rows;
  }

  /** Exactly the pages up to TotalPages are non-empty, and all but the last are full. */
  lemma PagesAreNonEmpty<T>(rows: seq<T>, pageSize: int, page: nat)
    requires pageSize >= 1 && page >= 1
    ensures page <= TotalPages(|rows|, pageSize) <==> Page(rows, page, pageSize) != []
    ensures page < TotalPages(|rows|, pageSize) ==> |Page(rows, page, pageSize)| == pageSize
  {
    var n := TotalPages(|rows|, pageSize);
    LastPage(|rows|, pageSize);
    PageOffsets(page, n, pageSize);
    NextOffset(page - 1, pageSize);
  }

  lemma QuotientOf(k: nat, q: nat, pageSize: nat, d: nat)
    requires k == q * pageSize + d && d < pageSize
    ensures k / pageSize == q && k % pageSize == d
  {
    var p := k / pageSize;
    assert k == p * pageSize + k % pageSize;
    assert p < q ==> (p + 1) * pageSize <= q * pageSize;
    assert p > q ==> (q + 1) * pageSize <= p * pageSize;
  }

  /** Row k of the list is on page k / pageSize + 1, at position k % pageSize, and on no other page. */
  lemma RowIsOnItsPage<T>(rows: seq<T>, pageSize: int, page: nat, d: nat)
    requires pageSize >= 1 && page >= 1
    ensures var k := (page - 1) * pageSize + d;
            && (d < |Page(rows, page, pageSize)| <==> d < pageSize && k < |rows|)
            && (d < |Page(rows, page, pageSize)| ==>
                  Page(rows, page, pageSize)[d] == rows[k] && k / pageSize == page - 1 && k % pageSize == d)
  {
    NextOffset(page - 1, pageSize);
    if d < pageSize {
      QuotientOf((page - 1) * pageSize + d, page - 1, pageSize, d);
    }
  }

  class PaginationParams {
    var page: int
    var pageSize: int

    constructor (page: int, pageSize: int)
      ensures this.page == page && this.pageSize == pageSize
    {
      this.page, this.pageSize := page, pageSize;
    }

    method Normalize()
      modifies this
      ensures page >= 1 && 1 <= pageSize <= 100
      ensures page == if old(page) >= 1 then old(page) else 1
      ensures 1 <= old(pageSize) <= 100 ==> pageSize == old(pageSize)
      ensures old(pageSize) < 1 ==> pageSize == 20
      ensures old(pageSize) > 100 ==> pageSize == 100
    {
      if page < 1 {
        page := 1;
      }
      if pageSize < 1 {
        pageSize := 20;
      }
      if pageSize > 100 {
        pageSize := 100;
      }
    }

    /** The rows before the page: none on page 1, and one page size more on each further page. */
    function Offset(): (offset: int)
      reads this
      ensures page >= 1 && pageSize >= 1 ==> offset >= 0 && offset % pageSize == 0 && offset / pageSize == page - 1
      ensures page >= 1 && pageSize >= 1 ==>
                forall rows: seq<int> :: Slice(rows, pageSize, offset) == Page(rows, page, pageSize)
    {
      assert page >= 1 && pageSize >= 1 ==> (page - 1) * pageSize >= 0;
      assert page >= 1 && pageSize >= 1 ==> ((page - 1) * pageSize) / pageSize == page - 1 by {
        if page >= 1 && pageSize >= 1 { QuotientOf((page - 1) * pageSize, page - 1, pageSize, 0); }
      }
      (page - 1) * pageSize
    }
  }
}
