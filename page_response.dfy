/**
 * `PageResponse<T>`: one page of rows plus the numbers a client needs to page
 * through the rest. The four-argument constructor derives `totalPages`,
 * `hasNext` and `hasPrevious` from what it is given; `setTotalItems` recomputes
 * only `totalPages`, and `setPageSize` recomputes nothing.
 */
module PageResponseModel {
  import opened JavaText

  /** Ceiling of `a / b` for a positive divisor, for every sign of `a`. */
  function CeilDiv(a: int, b: int): (q: int)
    requires b > 0
    ensures (q - 1) * b < a <= q * b
  {
    var q := (a + b - 1) / b;
    assert q * b <= a + b - 1 < q * b + b;
    q
  }

  /** Java's `(int)` cast of an integral `double`: out-of-range values saturate. */
  function SaturateToInt32(x: int): (r: int)
    ensures IsInt32(r)
    ensures IsInt32(x) ==> r == x
    ensures x > MaxInt32 ==> r == MaxInt32
    ensures x < MinInt32 ==> r == MinInt32
  {
    if x > MaxInt32 then MaxInt32 else if x < MinInt32 then MinInt32 else x
  }

  /** `calculateTotalPages(totalItems, pageSize)`: 0 for a non-positive size, otherwise
      `(int) Math.ceil((double) totalItems / pageSize)`. */
  function TotalPages(totalItems: int, pageSize: int): (r: int)
    ensures IsInt32(r)
    ensures pageSize <= 0 ==> r == 0
  {
    if pageSize <= 0 then 0 else SaturateToInt32(CeilDiv(totalItems, pageSize))
  }

  /** The page count is the least number of pages that hold every row (away from saturation). */
  lemma TotalPagesIsCeiling(totalItems: int, pageSize: int)
    requires totalItems > 0 && pageSize > 0
    requires totalItems <= MaxInt32
    ensures (TotalPages(totalItems, pageSize) - 1) * pageSize < totalItems <= TotalPages(totalItems, pageSize) * pageSize
  {
    var q := CeilDiv(totalItems, pageSize);
    PositiveFactor(q, pageSize);
    MulAtLeast(q - 1, pageSize);
    assert q <= totalItems;
  }

  lemma PositiveFactor(q: int, b: int)
    requires b >= 1 && q * b > 0
    ensures q >= 1
  {
  }

  /** No rows means no pages, whatever the size. */
  lemma NoRowsNoPages(pageSize: int)
    ensures TotalPages(0, pageSize) == 0
  {
    if pageSize > 0 {
      assert CeilDiv(0, pageSize) == (pageSize - 1) / pageSize == 0;
    }
  }

  /** `page < totalPages`. */
  predicate HasNext(page: int, totalPages: int) { page < totalPages }

  /** `page > 1`. */
  predicate HasPrevious(page: int) { page > 1 }

  /** With no rows there is never a next page, on any page. */
  lemma NoRowsNoNextPage(page: int, pageSize: int)
    requires page >= 1
    ensures !HasNext(page, TotalPages(0, pageSize))
  {
    NoRowsNoPages(pageSize);
  }

  /** The worked example: 101 rows at 20 per page make 6 pages; pages 1..5 have a next page, page 6 does not. */
  lemma HundredAndOneRowsAtTwenty(page: int)
    requires 1 <= page <= 6
    ensures TotalPages(101, 20) == 6
    ensures HasNext(page, TotalPages(101, 20)) <==> page <= 5
  {
    assert CeilDiv(101, 20) == 6;
  }

  class PageResponse<T> {
    var items: seq<T>
    var page: int
    var pageSize: int
    var totalItems: int
    var totalPages: int
    var hasNext: bool
    var hasPrevious: bool

    /** The derived fields agree with the stored ones, as the constructor leaves them. */
    ghost predicate Consistent()
      reads this
    {
      && totalPages == TotalPages(totalItems, pageSize)
      && hasNext == HasNext(page, totalPages)
      && hasPrevious == HasPrevious(page)
    }

    /** `PageResponse(items, page, pageSize, totalItems)`: the inputs are stored as passed
        and the three derived fields computed from them. */
    constructor (items: seq<T>, page: int, pageSize: int, totalItems: int)
      requires IsInt32(page) && IsInt32(pageSize) && IsInt64(totalItems)
      ensures this.items == items && this.page == page
      ensures this.pageSize == pageSize && this.totalItems == totalItems
      ensures Consistent()
    {
      this.items := items;
      this.page := page;
      this.pageSize := pageSize;
      this.totalItems := totalItems;
      var pages := TotalPages(totalItems, pageSize);
      this.totalPages := pages;
      this.hasNext := page < pages;
      this.hasPrevious := page > 1;
    }

    /** `setTotalItems(totalItems)`: recomputes `totalPages` from the current size and
        leaves both flags as they were, so they can go stale. */
    method SetTotalItems(totalItems: int)
      requires IsInt64(totalItems)
      modifies this
      ensures this.totalItems == totalItems
      ensures totalPages == TotalPages(totalItems, pageSize)
      ensures items == old(items) && page == old(page) && pageSize == old(pageSize)
      ensures hasNext == old(hasNext) && hasPrevious == old(hasPrevious)
    {
      this.totalItems := totalItems;
      this.totalPages := TotalPages(totalItems, this.pageSize);
    }

    /** `setPageSize(pageSize)`: stores the size and recomputes nothing. */
    method SetPageSize(pageSize: int)
      requires IsInt32(pageSize)
      modifies this
      ensures this.pageSize == pageSize
      ensures items == old(items) && page == old(page) && totalItems == old(totalItems)
      ensures totalPages == old(totalPages) && hasNext == old(hasNext) && hasPrevious == old(hasPrevious)
    {
      this.pageSize := pageSize;
    }
  }

  /** An empty first page of size 10, after `setTotalItems(100)`, reports ten pages
      but still no next page: the flags are not recomputed. */
  method StaleHasNextAfterSetTotalItems() returns (page: int, totalPages: int, hasNext: bool)
    ensures page < totalPages && !hasNext
  {
    var response := new PageResponse<int>([], 1, 10, 0);
    NoRowsNoPages(10);
    response.SetTotalItems(100);
    assert CeilDiv(100, 10) == 10;
    page, totalPages, hasNext := response.page, response.totalPages, response.hasNext;
  }
}
