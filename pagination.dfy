/** Page arithmetic shared by the listing handlers (pagination.helper.js). */
module Pagination {
  import opened Wrappers

  /** The metadata object; `totalPages` is None where `Math.ceil(count / limit)` is not finite (limit 0). */
  datatype PaginationMeta = PaginationMeta(total: int, page: int, limit: int, totalPages: Option<int>)

  /** `Math.ceil(a / b)` for a non-zero divisor, over the integers. */
  function CeilDiv(a: int, b: int): (r: int)
    requires b != 0
    ensures b > 0 ==> (r - 1) * b < a <= r * b
    ensures b < 0 ==> r * b <= a < (r - 1) * b
    decreases if b < 0 then 1 else 0
  {
    if b < 0 then CeilDiv(-a, -b)
    else if a % b == 0 then a / b
    else a / b + 1
  }

  /** `calculateOffset(page, limit)`: the number of rows skipped before `page`. */
  function CalculateOffset(page: int, limit: int): int
  {
    (page - 1) * limit
  }

  /** `createPaginationMeta(count, page, limit)`. */
  function CreatePaginationMeta(count: nat, page: int, limit: int): (m: PaginationMeta)
    ensures m.total == count && m.page == page && m.limit == limit
    ensures m.totalPages.Some? <==> limit != 0
  {
    PaginationMeta(count, page, limit, if limit == 0 then None else Some(CeilDiv(count, limit)))
  }

  /** Page 1 starts at the first row. */
  lemma FirstPageOffset(limit: int)
    ensures CalculateOffset(1, limit) == 0
  {
  }

  /** Consecutive pages are contiguous: page p + 1 starts where page p ends. */
  lemma ConsecutivePages(page: int, limit: int)
    ensures CalculateOffset(page + 1, limit) == CalculateOffset(page, limit) + limit
  {
  }

  /** With a positive limit the pages cover every row, and the last page is not empty. */
  lemma TotalPagesBounds(count: nat, page: int, limit: int)
    requires limit > 0
    ensures var m := CreatePaginationMeta(count, page, limit);
      m.totalPages.Some? && m.totalPages.value >= 0 &&
      m.totalPages.value * limit >= count &&
      (count > 0 ==> (m.totalPages.value - 1) * limit < count) &&
      (count == 0 ==> m.totalPages.value == 0)
  {
  }
}
