/** The shapes of the axios values the interceptors and the login page read. */
module Http {
  import opened JsRuntime

  /** A request config: the relative `url` (absent when the caller gave none),
      the HTTP method (`verb`), the headers and the body. */
  datatype RequestConfig = RequestConfig(
    url: Option<string>,
    verb: string,
    headers: map<string, string>,
    body: Option<string>)

  /** A response: its HTTP status and the `message` field of its JSON body,
      when there is one. */
  datatype Response = Response(status: int, message: Option<string>)

  /** An axios error: `error.code`, `error.response` (absent for a network
      failure) and `error.config`. A `TypeError` raised inside the page is
      an error with none of the three. */
  datatype AxiosError = AxiosError(
    code: Option<string>,
    response: Option<Response>,
    config: Option<RequestConfig>)

  /** `error.response?.status`. */
  function StatusOf(e: AxiosError): Option<int> {
    if e.response.Some? then Some(e.response.value.status) else None
  }

  /** `error.config?.url`. */
  function UrlOf(e: AxiosError): Option<string> {
    if e.config.Some? then e.config.value.url else None
  }

  /** The error a `TypeError` thrown in page code shows to a `catch` block. */
  const PlainTypeError := AxiosError(None, None, None)
}
