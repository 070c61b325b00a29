/**
 * The JSON envelopes of src/utils/response.ts. A response is the status code
 * passed to `res.status` with the body passed to `res.json`; the `timestamp`
 * field (wall-clock time) is not part of the model.
 */
module Responses {
  import opened Wrappers

  datatype Sent<B> = Sent(statusCode: int, body: B)

  datatype SuccessBody<T> = SuccessBody(success: bool, data: T, message: string)

  datatype ErrorBody = ErrorBody(success: bool, error: string, message: string)

  /** `totalPages` is `None` when `Math.ceil(total / limit)` is not a finite number (`limit` is 0). */
  datatype Pagination = Pagination(page: int, limit: int, total: int, totalPages: Option<int>,
                                   hasNext: bool, hasPrev: bool)

  datatype PageBody<T> = PageBody(success: bool, data: seq<T>, pagination: Pagination, message: string)

  /** `successResponse(res, data, message = 'Success', statusCode = 200)`. */
  function SuccessResponse<T>(data: T, message: Option<string>, statusCode: Option<int>): (r: Sent<SuccessBody<T>>)
    ensures r.body.success && r.body.data == data
    ensures message.None? ==> r.body.message == "Success"
    ensures statusCode.None? ==> r.statusCode == 200
    ensures message.Some? ==> r.body.message == message.value
    ensures statusCode.Some? ==> r.statusCode == statusCode.value
  {
    Sent(statusCode.GetOr(200), SuccessBody(true, data, message.GetOr("Success")))
  }

  /** `errorResponse(res, error, message = 'Error occurred', statusCode = 500)`. */
  function ErrorResponse(error: string, message: Option<string>, statusCode: Option<int>): (r: Sent<ErrorBody>)
    ensures !r.body.success && r.body.error == error
    ensures message.None? ==> r.body.message == "Error occurred"
    ensures statusCode.None? ==> r.statusCode == 500
    ensures message.Some? ==> r.body.message == message.value
    ensures statusCode.Some? ==> r.statusCode == statusCode.value
  {
    Sent(statusCode.GetOr(500), ErrorBody(false, error, message.GetOr("Error occurred")))
  }

  /** `Math.ceil` on a real number. */
  function Ceil(x: real): int {
    -((-x).Floor)
  }

  /** `Math.ceil(total / limit)`. */
  function TotalPages(total: int, limit: int): Option<int> {
    if limit == 0 then None else Some(Ceil(total as real / limit as real))
  }

  function PaginationOf(page: int, limit: int, total: int): Pagination {
    Pagination(page, limit, total, TotalPages(total, limit), page * limit < total, page > 1)
  }

  /** `paginatedResponse(res, data, page, limit, total, message = 'Success', statusCode = 200)`. */
  function PaginatedResponse<T>(data: seq<T>, page: int, limit: int, total: int,
                                message: Option<string>, statusCode: Option<int>): (r: Sent<PageBody<T>>)
    ensures r.body.success && r.body.data == data
    ensures r.body.pagination.page == page && r.body.pagination.limit == limit && r.body.pagination.total == total
    ensures r.body.pagination.hasPrev <==> page > 1
    ensures r.statusCode == statusCode.GetOr(200) && r.body.message == message.GetOr("Success")
  {
    Sent(statusCode.GetOr(200), PageBody(true, data, PaginationOf(page, limit, total), message.GetOr("Success")))
  }

  /** With a positive limit, `totalPages` is the least page count whose pages hold `total` items. */
  lemma TotalPagesIsCeiling(total: int, limit: int)
    requires limit > 0
    ensures TotalPages(total, limit).Some?
    ensures var p := TotalPages(total, limit).value;
            (p - 1) * limit < total <= p * limit
  {
    var x := total as real / limit as real;
    var p := Ceil(x);
    assert x * limit as real == total as real;
    assert (p - 1) as real < x <= p as real;
    assert (p - 1) as real * limit as real < x * limit as real;
    assert x * limit as real <= p as real * limit as real;
  }

  /** With a positive limit, `hasNext` says exactly that a page after `page` exists. */
  lemma HasNextIffLaterPage(page: int, limit: int, total: int)
    requires limit > 0
    ensures PaginationOf(page, limit, total).hasNext <==> page < TotalPages(total, limit).value
  {
    TotalPagesIsCeiling(total, limit);
    var p := TotalPages(total, limit).value;
    if page < p {
      assert page <= p - 1;
      assert page * limit <= (p - 1) * limit;
    } else {
      assert p * limit <= page * limit;
    }
  }
}
