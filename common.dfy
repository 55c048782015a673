/** Optional values, results, and the HTTP errors the routers raise. */
module Common {

  datatype Option<+T> = None | Some(value: T) {
    function GetOr(default: T): T {
      match this
      case Some(v) => v
      case None => default
    }
  }

  datatype Result<+T, +E> = Success(value: T) | Failure(error: E)

  /** The `HTTPException` status codes the routers raise, and the 422 that request validation produces. */
  datatype HttpError =
    | BadRequest      // 400
    | Forbidden       // 403
    | NotFound        // 404
    | Conflict        // 409
    | Unprocessable   // 422

  function StatusCode(e: HttpError): (code: nat)
    ensures 400 <= code < 500
  {
    match e
    case BadRequest => 400
    case Forbidden => 403
    case NotFound => 404
    case Conflict => 409
    case Unprocessable => 422
  }

  /** Python truthiness of an optional string: `None` and `""` are both false. */
  predicate Truthy(s: Option<string>) {
    s.Some? && s.value != ""
  }
}
