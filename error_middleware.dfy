/**
 * `errorHandler` and `notFoundHandler` of src/middlewares/error.middleware.ts:
 * an error and the deployment environment determine the response sent, and
 * in production the error loses its stack.
 */
module ErrorMiddleware {
  import opened Wrappers
  import opened ApiErrors
  import opened Responses

  /** What `errorHandler` sends, and the error object as it is left afterwards. */
  datatype Handled = Handled(sent: Sent<ErrorBody>, error: Error)

  function ErrorHandler(err: Error, env: string): (h: Handled)
    ensures !h.sent.body.success && h.sent.body.error == err.message
    ensures IsApiError(err) ==> h.sent.statusCode == StatusCode(err) && h.sent.body.message == err.message
    ensures !IsApiError(err) ==> h.sent.statusCode == 500 && h.sent.body.message == "Internal Server Error"
    ensures h.error.hasStack <==> err.hasStack && env != "production"
    ensures h.error.(hasStack := err.hasStack) == err
  {
    var statusCode := if IsApiError(err) then StatusCode(err) else 500;
    var message := if IsApiError(err) then err.message else "Internal Server Error";
    var kept := if env == "production" then err.(hasStack := false) else err;
    Handled(ErrorResponse(err.message, Some(message), Some(statusCode)), kept)
  }

  /** `notFoundHandler`: forwards a 404 `ApiError` naming the route. */
  function NotFoundHandler(originalUrl: string): (e: Error)
    ensures IsApiError(e) && StatusCode(e) == 404
  {
    NewApiError(404, "Route " + originalUrl + " not found")
  }

  /** An unmatched route is answered 404 with the route named in both `message` and `error`. */
  lemma UnmatchedRouteAnswer(url: string, env: string)
    ensures var m := "Route " + url + " not found";
            ErrorHandler(NotFoundHandler(url), env).sent == Sent(404, ErrorBody(false, m, m))
  {
  }

  /** Client-error classes are answered with a 4xx status, server-side classes with a 5xx status. */
  lemma ResponseSeverity(e: Error, env: string)
    ensures (e.cls in {BadRequest, Unauthorized, Forbidden, NotFound, Conflict, UnprocessableEntity} ||
             e.cls.Validation?) ==> 400 <= ErrorHandler(e, env).sent.statusCode < 500
    ensures e.cls in {Plain, InternalServer, ServiceUnavailable, Database} ==>
            500 <= ErrorHandler(e, env).sent.statusCode < 600
  {
  }
}
