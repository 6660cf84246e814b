/** The errors a call of the client can end with (SCApi/Sources/SCApi/Errors.swift). */
module Errors {

  import opened Wrappers

  /** `RequestError`: failures detected locally, carrying no server payload. */
  datatype RequestError = InvalidURL | Unknown

  /** `SCAPIError`: the structured payload a server sends with a non-2xx status. */
  datatype SCAPIError = SCAPIError(
    errorCode: Option<int>,
    childrenErrorCodes: Option<seq<string>>,
    errorParameters: Option<seq<string>>)

  /** An error thrown by a JSON or form codec; its content is the codec's business. */
  datatype CodecError = CodecError(debugDescription: string)

  /** An error thrown by the platform's network call itself (no response at all). */
  datatype NetworkError = NetworkError(code: int)

  /** Everything a verb of the client can throw. Swift throws untyped errors;
      the model tags each with where it came from. */
  datatype Failure =
    | Local(requestError: RequestError)
    | Server(apiError: SCAPIError)
    | Codec(codecError: CodecError)
    | Network(networkError: NetworkError)

  /** `customMessage`: a human-readable message per local failure. */
  function CustomMessage(e: RequestError): (m: string)
    ensures |m| > 0
  {
    match e
    case Unknown => "Unknown error"
    case InvalidURL => "Invalid url"
  }

  /** The message identifies the failure: different failures read differently. */
  lemma CustomMessageInjective(a: RequestError, b: RequestError)
    requires CustomMessage(a) == CustomMessage(b)
    ensures a == b
  {
  }
}
