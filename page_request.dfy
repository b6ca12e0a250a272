/**
 * `PageRequest`: the page number, page size, sort key and sort direction a
 * listing endpoint receives. Every way into the object (the three constructors
 * and the setters) clamps the page to at least 1, the size to 1..100 and the
 * direction to exactly "ASC" or "DESC"; the setters re-apply the same clamps.
 */
module PageRequestModel {
  import opened JavaText

  const DefaultPage: int := 1
  const DefaultPageSize: int := 20
  const MaxPageSize: int := 100
  const DefaultSortBy: string := "bookid"

  /** `Math.max(1, page)`. */
  function ClampPage(page: int): (r: int)
    ensures r >= 1
    ensures page >= 1 ==> r == page
    ensures page < 1 ==> r == 1
  {
    if page < 1 then 1 else page
  }

  /** `Math.max(1, Math.min(100, pageSize))`. */
  function ClampPageSize(pageSize: int): (r: int)
    ensures 1 <= r <= MaxPageSize
    ensures 1 <= pageSize <= MaxPageSize ==> r == pageSize
    ensures pageSize < 1 ==> r == 1
    ensures pageSize > MaxPageSize ==> r == MaxPageSize
  {
    var atMost := if pageSize < MaxPageSize then pageSize else MaxPageSize;
    if atMost < 1 then 1 else atMost
  }

  /** `"DESC".equalsIgnoreCase(direction) ? "DESC" : "ASC"`. */
  function NormalizeDirection(direction: Option<string>): (r: string)
    ensures r == "ASC" || r == "DESC"
    ensures r == "DESC" <==> LiteralEqualsIgnoreCase("DESC", direction)
  {
    if LiteralEqualsIgnoreCase("DESC", direction) then "DESC" else "ASC"
  }

  /** The rows skipped before page `page` when every page holds `pageSize` rows, as an exact integer. */
  function OffsetOf(page: int, pageSize: int): (r: int)
    requires page >= 1 && pageSize >= 1
    ensures r >= 0
    ensures r == 0 <==> page == 1
    ensures r >= page - 1
  {
    (page - 1) * pageSize
  }

  /** `getOffset()` as written: `(page - 1) * pageSize` evaluated in 32-bit `int` arithmetic. */
  function JavaOffset(page: int, pageSize: int): (r: int)
    ensures IsInt32(r)
    ensures IsInt32((page - 1) * pageSize) ==> r == (page - 1) * pageSize
  {
    Wrap32((page - 1) * pageSize)
  }

  /** Consecutive pages are adjacent windows: page `p + 1` starts where page `p` ends. */
  lemma OffsetOfNextPage(page: int, pageSize: int)
    requires page >= 1 && pageSize >= 1
    ensures OffsetOf(page + 1, pageSize) == OffsetOf(page, pageSize) + pageSize
  {
  }

  /** As long as the offset fits in an `int`, the as-written offset is the exact one. */
  lemma JavaOffsetExactWhileInRange(page: int, pageSize: int)
    requires page >= 1 && 1 <= pageSize <= MaxPageSize
    requires page <= 21_474_837
    ensures JavaOffset(page, pageSize) == OffsetOf(page, pageSize)
  {
    assert (page - 1) * pageSize <= 21_474_836 * pageSize <= 21_474_836 * MaxPageSize;
  }

  /** The overflow: at the largest page size, page 21474838 (a value a client can send)
      yields a negative offset, which the database rejects. */
  lemma JavaOffsetOverflows()
    ensures OffsetOf(21_474_838, MaxPageSize) == 2_147_483_700
    ensures JavaOffset(21_474_838, MaxPageSize) == -2_147_483_596
  {
  }

  /** The corrected offset, computed as a `long`, never overflows for any request the clamps admit. */
  lemma OffsetFitsInLong(page: int, pageSize: int)
    requires 1 <= page <= MaxInt32 && 1 <= pageSize <= MaxPageSize
    ensures IsInt64(OffsetOf(page, pageSize))
  {
    assert (page - 1) * pageSize <= MaxInt32 * MaxPageSize;
  }

  class PageRequest {
    var page: int
    var pageSize: int
    var sortBy: Option<string>
    var direction: string

    /** The clamping invariant every constructor and setter maintains. */
    ghost predicate Valid()
      reads this
    {
      && 1 <= page <= MaxInt32
      && 1 <= pageSize <= MaxPageSize
      && (direction == "ASC" || direction == "DESC")
    }

    /** `PageRequest()`: page 1, 20 rows, sorted by bookid ascending. */
    constructor Default()
      ensures Valid()
      ensures page == 1 && pageSize == 20 && sortBy == Some(DefaultSortBy) && direction == "ASC"
    {
      page := ClampPage(DefaultPage);
      pageSize := ClampPageSize(DefaultPageSize);
      sortBy := Some(DefaultSortBy);
      direction := NormalizeDirection(Some("ASC"));
    }

    /** `PageRequest(page, pageSize)`: clamped page and size, sorted by bookid ascending. */
    constructor OfPage(page: int, pageSize: int)
      requires IsInt32(page) && IsInt32(pageSize)
      ensures Valid()
      ensures this.page == ClampPage(page) && this.pageSize == ClampPageSize(pageSize)
      ensures sortBy == Some(DefaultSortBy) && direction == "ASC"
    {
      this.page := ClampPage(page);
      this.pageSize := ClampPageSize(pageSize);
      sortBy := Some(DefaultSortBy);
      direction := NormalizeDirection(Some("ASC"));
    }

    /** `PageRequest(page, pageSize, sortBy, direction)`: a null sort key becomes "bookid". */
    constructor (page: int, pageSize: int, sortBy: Option<string>, direction: Option<string>)
      requires IsInt32(page) && IsInt32(pageSize)
      ensures Valid()
      ensures this.page == ClampPage(page) && this.pageSize == ClampPageSize(pageSize)
      ensures this.sortBy == (if sortBy.Some? then sortBy else Some(DefaultSortBy))
      ensures this.direction == NormalizeDirection(direction)
    {
      this.page := ClampPage(page);
      this.pageSize := ClampPageSize(pageSize);
      this.sortBy := if sortBy.Some? then sortBy else Some(DefaultSortBy);
      this.direction := NormalizeDirection(direction);
    }

    /** `getOffset()`, with the multiplication done without overflow (see JavaOffset for the code as written). */
    function Offset(): (r: int)
      reads this
      requires Valid()
      ensures r == OffsetOf(page, pageSize)
      ensures IsInt64(r)
    {
      OffsetFitsInLong(page, pageSize);
      (page - 1) * pageSize
    }

    /** `setPage(page)`: the page clamp again; nothing else changes. */
    method SetPage(page: int)
      requires Valid() && IsInt32(page)
      modifies this
      ensures Valid()
      ensures this.page == ClampPage(page)
      ensures pageSize == old(pageSize) && sortBy == old(sortBy) && direction == old(direction)
    {
      this.page := ClampPage(page);
    }

    /** `setPageSize(pageSize)`: the size clamp again; nothing else changes. */
    method SetPageSize(pageSize: int)
      requires Valid() && IsInt32(pageSize)
      modifies this
      ensures Valid()
      ensures this.pageSize == ClampPageSize(pageSize)
      ensures page == old(page) && sortBy == old(sortBy) && direction == old(direction)
    {
      this.pageSize := ClampPageSize(pageSize);
    }

    /** `setSortBy(sortBy)`: stored as given, `null` included (unlike the constructor). */
    method SetSortBy(sortBy: Option<string>)
      requires Valid()
      modifies this
      ensures Valid()
      ensures this.sortBy == sortBy
      ensures page == old(page) && pageSize == old(pageSize) && direction == old(direction)
    {
      this.sortBy := sortBy;
    }

    /** `setDirection(direction)`: the same normalisation as the constructor. */
    method SetDirection(direction: Option<string>)
      requires Valid()
      modifies this
      ensures Valid()
      ensures this.direction == NormalizeDirection(direction)
      ensures page == old(page) && pageSize == old(pageSize) && sortBy == old(sortBy)
    {
      this.direction := NormalizeDirection(direction);
    }
  }
}
