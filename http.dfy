/**
 * HTTPException as the handlers raise it: a status code and a detail, which
 * is usually a message but may be any JSON value.
 */
module Http {
  import opened Json

  datatype HttpException = HttpException(statusCode: int, detail: Value)

  /** `HTTPException(status_code=code, detail=message)`. */
  function Raise(code: int, message: string): (e: HttpException)
    ensures e.statusCode == code && e.detail.Str? && e.detail.s == message
  {
    HttpException(code, Str(message))
  }
}
