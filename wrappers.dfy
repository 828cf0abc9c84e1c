/** Optional values, HTTP statuses and the two kinds of Java exception the services raise. */
module Wrappers {

  datatype Option<+T> = None | Some(value: T) {
    function GetOr(default: T): T {
      match this
      case Some(v) => v
      case None => default
    }
  }

  /** The `HttpStatus` values that `ApiException` is raised with. */
  datatype Status = BadRequest | Unauthorized | Forbidden | NotFound | InternalServerError | ServiceUnavailable

  /**
   * `ApiError` is an `ApiException` (status, message and the optional error code such as
   * "KIS_NOT_CONFIGURED"); `UnexpectedError` is any other runtime exception, which
   * the services either wrap or let through.
   */
  datatype Error =
    | ApiError(status: Status, message: string, errorCode: Option<string>)
    | UnexpectedError(message: string)

  /** A call that either returns a value or throws. */
  datatype Result<+T> = Ok(value: T) | Err(error: Error)

  function Api(status: Status, message: string): Error {
    ApiError(status, message, None)
  }

  /** True when the call threw an `ApiException` with the given status. */
  predicate FailsWith<T>(r: Result<T>, status: Status) {
    r.Err? && r.error.ApiError? && r.error.status == status
  }

  /** The services' usual guard around a gateway call: an `ApiException` passes through and
      any other exception becomes SERVICE_UNAVAILABLE, its message after `prefix`. */
  function Rethrow<T>(r: Result<T>, prefix: string): (r': Result<T>)
    ensures r.Ok? || r.error.ApiError? ==> r' == r
    ensures r.Err? && r.error.UnexpectedError? ==> r' == Err(Api(ServiceUnavailable, prefix + r.error.message))
    ensures r'.Err? ==> r'.error.ApiError?
  {
    if r.Err? && r.error.UnexpectedError? then Err(Api(ServiceUnavailable, prefix + r.error.message)) else r
  }
}
