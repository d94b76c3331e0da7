/**
 * What a view learns from one call to the REST API: either the call succeeded with a
 * value, or it failed with an error whose response body (when one was received) carries
 * the fields the views read (`message`, `detail`, `non_field_errors`, per-field errors).
 */
module Api {
  import opened JsValues

  /** `error.response.data` of a failed call. */
  datatype ErrorBody = ErrorBody(
    message: Option<string>,
    detail: Option<string>,
    nonFieldErrors: Option<seq<string>>,
    fields: map<string, string>)

  /** A failed call; `body` is `None` when no response was received. */
  datatype ApiError = ApiError(body: Option<ErrorBody>)

  /** The outcome of one awaited call. */
  datatype Outcome<T> = Succeeded(value: T) | Failed(error: ApiError)

  /** `error.response?.data?.message`. */
  function MessageOf(e: ApiError): Option<string> {
    if e.body.Some? then e.body.value.message else None
  }

  /** `error.response?.data?.detail`. */
  function DetailOf(e: ApiError): Option<string> {
    if e.body.Some? then e.body.value.detail else None
  }

  /** `error.response?.data?.message || fallback`. */
  function MessageOr(e: ApiError, fallback: string): string {
    OrElse(MessageOf(e), fallback)
  }
}
