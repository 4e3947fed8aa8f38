/** Offset pagination for list endpoints: the page metadata a response
    carries, and the clamped query parameters an endpoint receives. */
module Pagination {
  import opened Common

  datatype PaginatedResponse<T> = PaginatedResponse(
    items: seq<T>,
    total: int,
    page: int,
    pageSize: int,
    totalPages: int,
    hasNext: bool,
    hasPrevious: bool)

  /** `math.ceil(a / b)` for a positive numerator: the least integer not
      below the exact quotient. */
  function CeilDiv(a: int, b: int): (q: int)
    requires a > 0 && b != 0
    ensures b > 0 ==> (q - 1) * b < a <= q * b
    ensures b < 0 ==> q * b <= a < (q - 1) * b
  {
    if b > 0 then (if a % b == 0 then a / b else a / b + 1)
    else -(a / -b)
  }

  /** The number of pages: the ceiling of total / page_size when there is
      anything to show, else 0. A zero page size with items to show is the
      division by zero the code raises. */
  function TotalPages(total: int, pageSize: int): Result<int> {
    if total <= 0 then Ok(0)
    else if pageSize == 0 then Err("division by zero")
    else Ok(CeilDiv(total, pageSize))
  }

  /** `Paginator.create_paginated_response` */
  function CreatePaginatedResponse<T>(items: seq<T>, total: int, page: int, pageSize: int): (r: Result<PaginatedResponse<T>>)
    ensures r.Err? <==> total > 0 && pageSize == 0
    ensures r.Ok? ==> r.value.items == items && r.value.total == total &&
                      r.value.page == page && r.value.pageSize == pageSize
    ensures r.Ok? ==> (r.value.hasNext <==> page < r.value.totalPages)
    ensures r.Ok? ==> (r.value.hasPrevious <==> page > 1)
  {
    match TotalPages(total, pageSize)
    case Err(e) => Err(e)
    case Ok(pages) => Ok(PaginatedResponse(items, total, page, pageSize, pages, page < pages, page > 1))
  }

  /** With a positive page size, the page count is the least number of
      pages of that size that hold all the items, and it is
      (total + page_size - 1) div page_size; with nothing to show it is 0. */
  lemma TotalPagesIsCeiling<T>(items: seq<T>, total: int, page: int, pageSize: int)
    requires pageSize > 0
    ensures var r := CreatePaginatedResponse(items, total, page, pageSize);
      r.Ok? &&
      (total <= 0 ==> r.value.totalPages == 0) &&
      (total > 0 ==> r.value.totalPages >= 1 &&
                     (r.value.totalPages - 1) * pageSize < total <= r.value.totalPages * pageSize &&
                     r.value.totalPages == (total + pageSize - 1) / pageSize)
  {
    if total > 0 {
      var q := CeilDiv(total, pageSize);
      CeilFormula(total, pageSize, q);
    }
  }

  /** The closed formula agrees with the ceiling characterisation. */
  lemma CeilFormula(a: int, b: int, q: int)
    requires a > 0 && b > 0 && (q - 1) * b < a <= q * b
    ensures q >= 1 && q == (a + b - 1) / b
  {
    var f := (a + b - 1) / b;
    assert f * b <= a + b - 1 < (f + 1) * b;
    assert f * b < (q + 1) * b;
    MulLtCancel(f, q + 1, b);
    assert q * b < (f + 1) * b;
    MulLtCancel(q, f + 1, b);
  }

  lemma MulLtCancel(x: int, y: int, b: int)
    requires b > 0 && x * b < y * b
    ensures x < y
  {
  }

  /** A page past the last one has no next page, and only page 1 and below
      lack a previous one. */
  lemma PageBeyondRange<T>(items: seq<T>, total: int, page: int, pageSize: int)
    requires pageSize > 0 && total > 0
    requires page >= (total + pageSize - 1) / pageSize
    ensures var r := CreatePaginatedResponse(items, total, page, pageSize);
      r.Ok? && !r.value.hasNext
  {
    TotalPagesIsCeiling(items, total, page, pageSize);
  }

  /** Query parameters after clamping. */
  datatype PaginationParams = PaginationParams(page: int, pageSize: int)

  const MaxPageSize: int := 100

  /** `PaginationParams.as_query`: page at least 1, page size within 1..100. */
  function AsQuery(page: int, pageSize: int): (p: PaginationParams)
    ensures p.page >= 1 && 1 <= p.pageSize <= MaxPageSize
    ensures page >= 1 ==> p.page == page
    ensures 1 <= pageSize <= MaxPageSize ==> p.pageSize == pageSize
    ensures page < 1 ==> p.page == 1
    ensures pageSize < 1 ==> p.pageSize == 1
    ensures pageSize > MaxPageSize ==> p.pageSize == MaxPageSize
  {
    PaginationParams(Max(1, page), Min(Max(1, pageSize), MaxPageSize))
  }

  /** `PaginationParams.skip`: the offset of the page's first item. */
  function Skip(p: PaginationParams): int {
    (p.page - 1) * p.pageSize
  }

  /** `PaginationParams.limit` */
  function Limit(p: PaginationParams): int {
    p.pageSize
  }

  /** For clamped parameters, pages tile the item list: the offset is never
      negative, the first page starts at 0, and each page starts where the
      previous one ended. */
  lemma PagesTile(page: int, pageSize: int)
    ensures var p := AsQuery(page, pageSize);
      Skip(p) >= 0 && Limit(p) == p.pageSize &&
      (p.page == 1 ==> Skip(p) == 0) &&
      Skip(AsQuery(p.page + 1, p.pageSize)) == Skip(p) + Limit(p)
  {
    var p := AsQuery(page, pageSize);
    assert p.page - 1 >= 0;
  }

  /** A clamped page lies within the count computed for a response of the
      same size exactly when its offset is inside the item list. */
  lemma PageInRange<T>(items: seq<T>, page: int, pageSize: int, total: int)
    requires total > 0
    ensures var p := AsQuery(page, pageSize);
      var r := CreatePaginatedResponse(items, total, p.page, p.pageSize);
      r.Ok? && (p.page <= r.value.totalPages <==> Skip(p) < total)
  {
    var p := AsQuery(page, pageSize);
    TotalPagesIsCeiling(items, total, p.page, p.pageSize);
    PageWithinCount(total, p.pageSize, CeilDiv(total, p.pageSize), p.page);
  }

  /** Page k (from 1) of size b starts inside a items exactly when k is at
      most the page count n. */
  lemma PageWithinCount(a: int, b: int, n: int, k: int)
    requires a > 0 && b > 0 && (n - 1) * b < a <= n * b && k >= 1
    ensures k <= n <==> (k - 1) * b < a
  {
    if k <= n {
      assert (k - 1) * b <= (n - 1) * b;
    } else {
      assert (k - 1) * b >= n * b;
    }
  }
}
