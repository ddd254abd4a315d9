/**
 * The parts of the HTTP client library and of `ql_core` that the login code
 * inspects. Sending requests and decoding JSON happen outside this model: their
 * outcomes are inputs.
 */
module Http {
  import opened Wrappers

  /** A parsed URL: its serialisation (what `to_string` prints) and its host, if any. */
  datatype Url = Url(serialization: string, host: Option<string>)

  /** An error raised by the HTTP client while sending or reading a response. */
  datatype TransportFailure = TransportFailure(description: string)

  /** The two variants of `ql_core::RequestError` that the login code builds. */
  datatype RequestError =
    | DownloadError(code: nat, url: Url)
    | ReqwestError(cause: TransportFailure)

  /** `ql_core::JsonError`: the text that did not decode and the decoder's reason. */
  datatype JsonError = JsonError(json: string, reason: string)

  /** `StatusCode::is_success`: the 2xx range. */
  predicate IsSuccess(code: nat)
  {
    200 <= code < 300
  }
}
