/**
 * What the pages see of the HTTP API (src/api/services.ts is a thin wrapper over a client that is
 * not part of this model): each awaited call either resolves to the response body or rejects with an error
 * whose `response.data.message` may be missing. Toast messages (`message.success`/`error`) are
 * returned as values.
 */
module Gateway {
  import opened Wrappers
  import opened JsValues

  datatype Response<T> = Resolved(data: T) | Rejected(message: Option<string>)

  datatype Toast = SuccessToast(text: string) | ErrorToast(text: string)

  /** `error.response?.data?.message || fallback`. */
  function FailureText(message: Option<string>, fallback: string): (t: string)
    ensures Truthy(message) ==> t == message.value
    ensures !Truthy(message) ==> t == fallback
    ensures fallback != "" ==> t != ""
  {
    Or(message, fallback)
  }
}
