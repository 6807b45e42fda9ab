/**
 * The arithmetic the paginated list endpoints share: query defaults, the
 * offset, and `Math.ceil(count / limit)`.
 */
module Pagination {
  import opened Wrappers
  import Js

  /** An HTTP answer: a status with a JSON body, or an error status with its text. */
  datatype Reply<T> = Json(status: int, body: T) | Fail(status: int, message: string)

  /** `Math.ceil(count / limit)` on integers. */
  function CeilDiv(count: nat, limit: int): (q: nat)
    requires limit > 0
  {
    if count % limit == 0 then count / limit else count / limit + 1
  }

  /**
   * The page count covers every row, the last page is not empty, no page
   * count below it would do, and there are no pages exactly when there are
   * no rows.
   */
  lemma CeilDivSpec(count: nat, limit: int)
    requires limit > 0
    ensures CeilDiv(count, limit) * limit >= count
    ensures (CeilDiv(count, limit) - 1) * limit < count
    ensures forall q: nat :: q * limit >= count ==> q >= CeilDiv(count, limit)
    ensures CeilDiv(count, limit) == 0 <==> count == 0
  {
    var q := CeilDiv(count, limit);
    var d, m := count / limit, count % limit;
    assert count == d * limit + m && 0 <= m < limit;
    if m == 0 {
      assert q * limit == count;
    } else {
      assert q * limit == d * limit + limit;
    }
    forall k: nat | k * limit >= count ensures k >= q {
    }
  }

  /** The parsed query: `page`, `limit` and `offset = (page - 1) * limit`. */
  datatype Query = Query(page: int, limit: int, offset: int)

  /** `parseInt(page) || 1` and `parseInt(limit) || 10`, then the offset. */
  function ParseQuery(pageArg: Option<int>, limitArg: Option<int>): (q: Query)
    ensures q.page != 0 && q.limit != 0
    ensures q.offset == (q.page - 1) * q.limit
    ensures q.page == Js.IntOr(pageArg, 1) && q.limit == Js.IntOr(limitArg, 10)
  {
    var page := Js.IntOr(pageArg, 1);
    var limit := Js.IntOr(limitArg, 10);
    Query(page, limit, (page - 1) * limit)
  }

  /** The body of a page: `{<rows>, total, totalPages, currentPage}`. */
  datatype PageBody<T> = PageBody(rows: seq<T>, total: nat, totalPages: nat, currentPage: int)

  /**
   * A list endpoint: with a positive limit the store is asked for `limit`
   * rows from `offset` (`find` answers with the total count and the rows, or
   * the error it threw) and the page body is returned; otherwise 400
   * "Invalid limit". A thrown error is answered with status 400.
   */
  function Paginated<T>(pageArg: Option<int>, limitArg: Option<int>, find: (int, int) -> Result<(nat, seq<T>)>): (r: Reply<PageBody<T>>)
  {
    var q := ParseQuery(pageArg, limitArg);
    if q.limit > 0 then
      match find(q.offset, q.limit)
      case Ok((count, rows)) => Json(200, PageBody(rows, count, CeilDiv(count, q.limit), q.page))
      case Err(m) => Fail(400, m)
    else Fail(400, "Invalid limit")
  }

  /**
   * The reply of a list endpoint: 400 "Invalid limit" when the parsed limit
   * is negative (0 and a failed parse fall back to 10); otherwise the
   * store's count is echoed as `total`, the requested page as `currentPage`,
   * and `totalPages` is the least page count that covers the rows with the
   * parsed limit (1 for the default page, 10 for the default limit).
   */
  lemma PaginatedSpec<T>(pageArg: Option<int>, limitArg: Option<int>, find: (int, int) -> Result<(nat, seq<T>)>)
    ensures limitArg.Some? && limitArg.value < 0 ==> Paginated(pageArg, limitArg, find) == Fail(400, "Invalid limit")
    ensures limitArg.None? || limitArg.value >= 0 ==>
              var q := ParseQuery(pageArg, limitArg);
              var r := Paginated(pageArg, limitArg, find);
              && q.limit > 0
              && (find(q.offset, q.limit).Err? ==> r == Fail(400, find(q.offset, q.limit).message))
              && (find(q.offset, q.limit).Ok? ==>
                    r.Json? && r.status == 200
                    && r.body.rows == find(q.offset, q.limit).value.1
                    && r.body.total == find(q.offset, q.limit).value.0
                    && r.body.currentPage == q.page
                    && r.body.totalPages * q.limit >= r.body.total
                    && (r.body.totalPages - 1) * q.limit < r.body.total
                    && (r.body.totalPages == 0 <==> r.body.total == 0))
  {
    var q := ParseQuery(pageArg, limitArg);
    Js.IntOrNonZero(limitArg, 10);
    if q.limit > 0 {
      match find(q.offset, q.limit)
      case Ok((count, rows)) => CeilDivSpec(count, q.limit);
      case Err(m) =>
    }
  }
}
