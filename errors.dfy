/** Values shared by the controllers and the error-handling middleware:
    optional request-body fields, the errors a handler throws, and the
    outcome of a handler. */
module Errors {

  /** The id of a user account. */
  type UserId = nat

  /** The message of a request whose body lacks a required field. */
  const ValuesMissing := "Please provide all values"

  datatype Option<+T> = None | Some(value: T) {

    /** The value, or `default` when the field is absent. */
    function GetOr(default: T): T
    {
      match this
      case Some(v) => v
      case None => default
    }
  }

  /** A string field of a typed request body as `!field` sees it: an
      absent field and the empty string alike count as missing. (`!field`
      also treats `null`, `0` and `false` as missing; typed bodies cannot
      carry those.) */
  predicate Present(field: Option<string>)
  {
    field.Some? && field.value != ""
  }

  /** The errors a controller can throw.
      - BadRequest, NotFound and UnAuthenticated are the project's own error
        classes (status 400, 404 and 401).
      - DuplicateKey is the store's unique-index violation (code 11000) on the
        named keys.
      - Unexpected is any other JavaScript error, with its `name` and
        `message`. */
  datatype ApiError =
    | BadRequest(message: string)
    | NotFound(message: string)
    | UnAuthenticated(message: string)
    | DuplicateKey(keys: seq<string>)
    | Unexpected(name: string, message: string)

  /** A handler either answers with a value or throws an error. */
  datatype Result<+T> = Success(value: T) | Failure(error: ApiError)

  /** Decimal text of a natural number, as a template literal prints it. */
  function DecimalText(n: nat): string
  {
    if n < 10 then [DigitChar(n)] else DecimalText(n / 10) + [DigitChar(n % 10)]
  }

  function DigitChar(d: nat): char
    requires d < 10
  {
    "0123456789"[d]
  }
}
