/** The outcome of one awaited `axios.get`, with the transport abstracted away. */
module Axios {
  import opened Js

  /** The `response` an axios rejection carries: the HTTP status and the body. */
  datatype ErrorResponse = ErrorResponse(status: int, data: Json)

  /** `Ok` resolves with the response body `data`; `Fail` is a rejection whose
      error has a `response` (an HTTP error status) or none (a network error). */
  datatype Response<+T> = Ok(data: T) | Fail(response: Option<ErrorResponse>)
}
