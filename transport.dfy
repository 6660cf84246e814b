/** The network provider and its `URLSession` binding
    (SCApi/Sources/SCApi/NetworkProviderProtocol.swift, Sources/SCApi/Api.swift:106-204). */
module Transport {

  import opened Wrappers
  import opened Errors
  import opened UrlBuilder

  newtype byte = x: int | 0 <= x < 256

  /** Foundation's `Data`. */
  type Data = seq<byte>

  /** `[String: String]?`, the per-call header fields. */
  type Headers = Option<map<string, string>>

  datatype HttpMethod = GET | POST | PUT | DELETE

  /** `URLRequest`: `data(from:)` leaves the method at the default, GET. */
  datatype Request = Request(url: Url, httpMethod: HttpMethod, httpBody: Option<Data>, headers: Headers)

  /** What `URLSession.shared.data(for:)` hands back: the body and, when the
      response is an `HTTPURLResponse`, its status code. */
  datatype Response = Response(body: Data, statusCode: Option<int>)

  /** The platform call, which may itself throw. */
  type Platform = Request -> Result<Response, NetworkError>

  /** `JSONDecoder().decode(SCAPIError.self, from:)`. */
  type ErrorDecoder = Data -> Result<SCAPIError, CodecError>

  /** The status range `200...299`, the Successful class of section 15.3 of RFC 9110. */
  predicate IsSuccessful(statusCode: int) {
    200 <= statusCode <= 299
  }

  /** An HTTP reply with a status in the Successful class. */
  predicate Succeeded(reply: Result<Response, NetworkError>) {
    reply.Success? && reply.value.statusCode.Some? && IsSuccessful(reply.value.statusCode.value)
  }

  /** The status-code contract every transport verb keeps, whatever it returns
      on success: it succeeds exactly on a 2xx reply; a non-HTTP response is
      `unknown`; any other status throws the server's error payload, or the
      decoder's error when the body is no such payload; a failed platform call
      is passed on. */
  predicate Obeys<X>(reply: Result<Response, NetworkError>, decodeError: ErrorDecoder, r: Result<X, Failure>) {
    && (r.Success? <==> Succeeded(reply))
    && (reply.Failure? ==> r == Failure(Network(reply.error)))
    && (reply.Success? && reply.value.statusCode.None? ==> r == Failure(Local(Unknown)))
    && (reply.Success? && reply.value.statusCode.Some? && !IsSuccessful(reply.value.statusCode.value) ==>
          match decodeError(reply.value.body)
          case Success(payload) => r == Failure(Server(payload))
          case Failure(c) => r == Failure(Codec(c)))
  }

  /** The `switch urlResponse.statusCode` shared by every verb of the binding. */
  function Dispatch(reply: Result<Response, NetworkError>, decodeError: ErrorDecoder): (r: Result<Data, Failure>)
    ensures Obeys(reply, decodeError, r)
    ensures r.Success? ==> r.value == reply.value.body
    ensures r == Failure(Local(Unknown)) <==> reply.Success? && reply.value.statusCode.None?
    ensures r.Failure? && r.error.Server? ==> reply.Success? && !Succeeded(reply)
  {
    match reply
    case Failure(n) => Failure(Network(n))
    case Success(response) =>
      match response.statusCode
      case None => Failure(Local(Unknown))
      case Some(code) =>
        if IsSuccessful(code) then Success(response.body)
        else
          match decodeError(response.body)
          case Success(payload) => Failure(Server(payload))
          case Failure(c) => Failure(Codec(c))
  }

  /** The body-less variants: `return` instead of `return data`. */
  function Discard(r: Result<Data, Failure>): (d: Result<(), Failure>)
    ensures d.Success? <==> r.Success?
    ensures d.Failure? ==> d.error == r.error
  {
    match r
    case Success(_) => Success(())
    case Failure(f) => Failure(f)
  }

  /** `data(from:headers:)`: a GET without a body that returns the reply body. */
  function SessionData(platform: Platform, decodeError: ErrorDecoder, url: Url, headers: Headers): (r: Result<Data, Failure>)
    ensures Obeys(platform(Request(url, GET, None, headers)), decodeError, r)
    ensures r.Success? ==> r.value == platform(Request(url, GET, None, headers)).value.body
  {
    Dispatch(platform(Request(url, GET, None, headers)), decodeError)
  }

  /** `delete(at:body:headers:)`: a DELETE that returns nothing. */
  function SessionDelete(platform: Platform, decodeError: ErrorDecoder, url: Url, body: Option<Data>,
                         headers: Headers): (r: Result<(), Failure>)
    ensures Obeys(platform(Request(url, DELETE, body, headers)), decodeError, r)
  {
    Discard(Dispatch(platform(Request(url, DELETE, body, headers)), decodeError))
  }

  /** `post(to:body:headers:) -> Data`: a POST that returns the reply body. */
  function SessionPost(platform: Platform, decodeError: ErrorDecoder, url: Url, body: Option<Data>,
                       headers: Headers): (r: Result<Data, Failure>)
    ensures Obeys(platform(Request(url, POST, body, headers)), decodeError, r)
    ensures r.Success? ==> r.value == platform(Request(url, POST, body, headers)).value.body
  {
    Dispatch(platform(Request(url, POST, body, headers)), decodeError)
  }

  /** `post(to:body:headers:)` without a result: a POST that returns nothing. */
  function SessionPostNoResponse(platform: Platform, decodeError: ErrorDecoder, url: Url, body: Option<Data>,
                                 headers: Headers): (r: Result<(), Failure>)
    ensures Obeys(platform(Request(url, POST, body, headers)), decodeError, r)
  {
    Discard(Dispatch(platform(Request(url, POST, body, headers)), decodeError))
  }

  /** `put(at:body:headers:)`: a PUT that returns nothing. */
  function SessionPut(platform: Platform, decodeError: ErrorDecoder, url: Url, body: Option<Data>,
                      headers: Headers): (r: Result<(), Failure>)
    ensures Obeys(platform(Request(url, PUT, body, headers)), decodeError, r)
  {
    Discard(Dispatch(platform(Request(url, PUT, body, headers)), decodeError))
  }

  /** `NetworkProviderProtocol`: the five calls the client makes. Swift
      overloads `post` on its result type; the model names the two. */
  datatype Provider = Provider(
    data: (Url, Headers) -> Result<Data, Failure>,
    post: (Url, Option<Data>, Headers) -> Result<Data, Failure>,
    postNoResponse: (Url, Option<Data>, Headers) -> Result<(), Failure>,
    delete: (Url, Option<Data>, Headers) -> Result<(), Failure>,
    put: (Url, Option<Data>, Headers) -> Result<(), Failure>)

  /** `extension URLSession: NetworkProviderProtocol`. */
  function Session(platform: Platform, decodeError: ErrorDecoder): (p: Provider)
    ensures forall u: Url, h: Headers ::
      && Obeys(platform(Request(u, GET, None, h)), decodeError, p.data(u, h))
      && (p.data(u, h).Success? ==> p.data(u, h).value == platform(Request(u, GET, None, h)).value.body)
    ensures forall u: Url, b: Option<Data>, h: Headers ::
      && Obeys(platform(Request(u, POST, b, h)), decodeError, p.post(u, b, h))
      && (p.post(u, b, h).Success? ==> p.post(u, b, h).value == platform(Request(u, POST, b, h)).value.body)
    ensures forall u: Url, b: Option<Data>, h: Headers ::
      Obeys(platform(Request(u, POST, b, h)), decodeError, p.postNoResponse(u, b, h))
    ensures forall u: Url, b: Option<Data>, h: Headers ::
      Obeys(platform(Request(u, DELETE, b, h)), decodeError, p.delete(u, b, h))
    ensures forall u: Url, b: Option<Data>, h: Headers ::
      Obeys(platform(Request(u, PUT, b, h)), decodeError, p.put(u, b, h))
  {
    Provider(
      (url: Url, headers: Headers) => SessionData(platform, decodeError, url, headers),
      (url: Url, body: Option<Data>, headers: Headers) => SessionPost(platform, decodeError, url, body, headers),
      (url: Url, body: Option<Data>, headers: Headers) => SessionPostNoResponse(platform, decodeError, url, body, headers),
      (url: Url, body: Option<Data>, headers: Headers) => SessionDelete(platform, decodeError, url, body, headers),
      (url: Url, body: Option<Data>, headers: Headers) => SessionPut(platform, decodeError, url, body, headers))
  }
}
