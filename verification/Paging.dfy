/** Page counts and offsets of a listing, and the slice of charts a page shows. */
module Paging {
  import opened Wrappers

  /** Go's integer division and remainder, which round toward zero. */
  function Quotient(a: int, b: int): int
    requires b != 0
  {
    if a >= 0 then (if b > 0 then a / b else -(a / -b)) else (if b > 0 then -(-a / b) else -a / -b)
  }

  function Remainder(a: int, b: int): int
    requires b != 0
  {
    a - b * Quotient(a, b)
  }

  class Pagination {
    var pageIndex: int
    var pageSize: int
    var totalCount: int
    var pageCount: int

    constructor (pageIndex: int, pageSize: int, totalCount: int)
      ensures this.pageIndex == pageIndex && this.pageSize == pageSize && this.totalCount == totalCount &&
              pageCount == 0
    {
      this.pageIndex, this.pageSize, this.totalCount, pageCount := pageIndex, pageSize, totalCount, 0;
    }

    method GetPageCount() returns (count: int)
      modifies this`pageCount
      ensures count == PageCount(pageSize, totalCount)
      ensures pageSize != 0 ==> pageCount == count
      ensures pageSize == 0 ==> pageCount == old(pageCount)
    {
      if pageSize == 0 {
        return 0;
      }
      if Remainder(totalCount, pageSize) == 0 {
        pageCount := Quotient(totalCount, pageSize);
      } else {
        pageCount := Quotient(totalCount, pageSize) + 1;
      }
      return pageCount;
    }
  }

  function PageCount(pageSize: int, total: int): int {
    if pageSize == 0 then 0
    else Quotient(total, pageSize) + if Remainder(total, pageSize) == 0 then 0 else 1
  }

  /** The offset of the SQL window of a page. */
  function PageOffset(pageIndex: int, pageSize: int): int {
    if pageIndex <= 0 then 0 else pageSize * (pageIndex - 1)
  }

  /** Slicing outside the bounds stops the program. */
  datatype Panic = SliceOutOfRange

  function Slice<T>(list: seq<T>, from: int, to: int): Result<seq<T>, Panic> {
    if 0 <= from <= to <= |list| then Ok(list[from..to]) else Err(SliceOutOfRange)
  }

  /** The charts of a page: nothing past the last page. */
  method PaginateHelmRepositoryDetail<T>(charts: seq<T>, pageIndex: int, pageSize: int)
    returns (r: Result<seq<T>, Panic>)
    ensures r == Page(charts, pageIndex, pageSize)
  {
    var page := new Pagination(pageIndex, pageSize, |charts|);
    var pageCount := page.GetPageCount();
    if pageIndex < pageCount {
      return Slice(charts, (pageIndex - 1) * pageSize, pageIndex * pageSize);
    } else if pageIndex == pageCount {
      return Slice(charts, (pageIndex - 1) * pageSize, |charts|);
    }
    return Ok([]);
  }

  function Page<T>(charts: seq<T>, pageIndex: int, pageSize: int): Result<seq<T>, Panic> {
    var count := PageCount(pageSize, |charts|);
    if pageIndex < count then Slice(charts, (pageIndex - 1) * pageSize, pageIndex * pageSize)
    else if pageIndex == count then Slice(charts, (pageIndex - 1) * pageSize, |charts|)
    else Ok([])
  }

  /** The rows an SQL "limit offset, size" keeps. */
  function Window<T>(rows: seq<T>, offset: int, size: int): seq<T>
    requires 0 <= offset && 0 <= size
  {
    var from := if offset <= |rows| then offset else |rows|;
    var to := if offset + size <= |rows| then offset + size else |rows|;
    rows[from..to]
  }

  /** The page count is the least number of pages of that size that hold everything. */
  lemma {:induction false} PageCountIsLeast(size: int, total: nat)
    requires size > 0
    ensures var n := PageCount(size, total); n >= 0 && (n - 1) * size < total <= n * size
  {
    assert total == size * (total / size) + total % size;
    if total == 0 {
      assert 0 / size == 0;
    }
  }

  lemma {:induction false} ProductOrder(a: int, b: int, size: int)
    requires a <= b && size >= 0
    ensures a * size <= b * size
  {
  }

  /** For a positive page size, each page is the SQL window of its offset; a page number below
      one is out of range and stops the program, where an SQL listing shows its first page. */
  lemma {:induction false} PageIsWindow<T>(charts: seq<T>, pageIndex: int, size: int)
    requires size > 0
    ensures pageIndex >= 1 ==> Page(charts, pageIndex, size) == Ok(Window(charts, PageOffset(pageIndex, size), size))
    ensures pageIndex < 1 ==> Page(charts, pageIndex, size) == Err(SliceOutOfRange) && PageOffset(pageIndex, size) == 0
  {
    var n := PageCount(size, |charts|);
    PageCountIsLeast(size, |charts|);
    if pageIndex >= 1 {
      assert PageOffset(pageIndex, size) == (pageIndex - 1) * size;
      assert (pageIndex - 1) * size + size == pageIndex * size;
      ProductOrder(0, pageIndex - 1, size);
      if pageIndex < n {
        ProductOrder(pageIndex, n - 1, size);
      } else if pageIndex > n {
        ProductOrder(n, pageIndex - 1, size);
        assert Window(charts, PageOffset(pageIndex, size), size) == [];
      }
    } else {
      ProductOrder(pageIndex - 1, -1, size);
    }
  }

  /** Pages 1 to count, one after the other. */
  function Pages<T>(charts: seq<T>, size: int, count: nat): seq<T>
    requires size > 0
  {
    if count == 0 then [] else Pages(charts, size, count - 1) + Window(charts, PageOffset(count, size), size)
  }

  lemma {:induction false} PagesArePrefix<T>(charts: seq<T>, size: int, count: nat)
    requires size > 0
    ensures Pages(charts, size, count) == charts[..if count * size <= |charts| then count * size else |charts|]
  {
    if count > 0 {
      PagesArePrefix(charts, size, count - 1);
      assert (count - 1) * size + size == count * size;
      assert PageOffset(count, size) == (count - 1) * size;
      ProductOrder(0, count - 1, size);
    }
  }

  /** Pages 1 to the page count are non-empty, at most a page long, and together are the whole
      list; every later page is empty. */
  lemma {:induction false} PagesCoverEverything<T>(charts: seq<T>, size: int)
    requires size > 0
    ensures var n := PageCount(size, |charts|);
            && n >= 0 && Pages(charts, size, n) == charts
            && (forall i :: 1 <= i <= n ==> Page(charts, i, size).Ok? && 0 < |Page(charts, i, size).value| <= size)
            && (forall i :: i > n ==> Page(charts, i, size) == Ok([]))
  {
    var n := PageCount(size, |charts|);
    PageCountIsLeast(size, |charts|);
    PagesArePrefix(charts, size, n);
    forall i | 1 <= i <= n
      ensures Page(charts, i, size).Ok? && 0 < |Page(charts, i, size).value| <= size
    {
      PageIsWindow(charts, i, size);
      ProductOrder(i - 1, n - 1, size);
      assert PageOffset(i, size) == (i - 1) * size;
    }
  }
}
