# SCApi client core, modelled in Dafny

SCApi is a thin typed HTTP client for iOS code. An `Endpoint` describes a
resource (scheme, host, path, version, query parameters). The `Api` class turns
it into a URL, encodes a request body, hands the request to a network provider
and decodes the reply. The provider's `URLSession` binding sorts every reply by
status code. This project models those three layers as Dafny values and
functions and proves what each one promises:

- `UrlBuilder`: `url(from:)`. It splits a host that holds a `/`, assembles
  host, path and the query-item list, and accepts or rejects the result with
  `invalidURL`. `ResolveUrl` is the step-by-step method with its loop over the
  query parameters. It is proved equal to the specification function
  `UrlFrom`, and the lemmas state the properties of that function.
- `Transport`: the `URLSession` extension. `Obeys` is the status-code contract:
  2xx succeeds, any other status throws the decoded `SCAPIError`, a non-HTTP
  response throws `unknown`. Every verb of the binding is proved to keep it for
  the request it sends (method, body and headers). `Provider` is
  `NetworkProviderProtocol`; `Session` is the conformance of `URLSession`.
- `Client`: the verbs of `Api`. Each verb chains the same steps (URL, encode,
  transport, decode), but the order differs between verbs. The lemmas prove
  which error wins in each verb, and that the later steps are never consulted
  once an earlier one fails.
- `Errors`, `Endpoints`, `Wrappers`: the error types, the endpoint descriptor
  with its default scheme, and Option/Result.

Foreign pieces are parameters of the functions, since the model cannot see
them:
- Foundation's verdict on `URLComponents.url` (`formsUrl`);
- the JSON and form encoders and decoders;
- the platform call `URLSession.shared.data(for:)`;
- the decoder of the error payload.

A Swift `throw` becomes a `Failure` value tagged with where it came from:
`Local` (`RequestError`), `Server` (`SCAPIError`), `Codec` or `Network`.

Three facts about the code shape the model:
- The host is split on every `/` (`components(separatedBy:)`, Api.swift:62).
  Segment 0 becomes the host, segment 1 goes into the path, and later segments
  are dropped.
- `post(endpoint:model:)` (both overloads) and `postURLEncoder` encode the body
  before they resolve the URL (Api.swift:36, 41-42, 47). `put` and
  `delete(endpoint:model:)` resolve the URL first (Api.swift:26-27, 52-53).
- Whether an empty or blank host fails with `invalidURL` is decided by
  Foundation's `URLComponents.url`. The model leaves that verdict to `formsUrl`.

## Model

| member | source | states |
|---|---|---|
| Errors.CustomMessage | SCApi/Sources/SCApi/Errors.swift:13-20 | every request error has a non-empty message |
| Errors.CustomMessageInjective | SCApi/Sources/SCApi/Errors.swift:13-20 | equal messages mean equal errors: the message identifies the failure |
| Endpoints.WithDefaultScheme | Sources/SCApi/Endpoint.swift:11-15 | an endpoint that does not declare a scheme gets "https", with its other fields unchanged |
| UrlBuilder.Split | Sources/SCApi/Api.swift:62 | the host segments: at least one; every segment slash-free; two or more exactly when the text holds "/"; the first is the text up to the first "/" |
| UrlBuilder.JoinSplit | Sources/SCApi/Api.swift:62 | joining the segments with "/" gives back the host text |
| UrlBuilder.SplitJoin | Sources/SCApi/Api.swift:62 | splitting a "/"-join of slash-free segments gives back the segments, so Split is the inverse of Join |
| UrlBuilder.SplitConcat | Sources/SCApi/Api.swift:62 | a slash-free text before the first "/" becomes segment 0, and the remainder is split on its own |
| UrlBuilder.QueryItemsFor | Sources/SCApi/Api.swift:72-79 | no item list when the parameters are absent or empty; otherwise exactly one item per entry, in order, named by the key and valued by the value |
| UrlBuilder.ComponentsFor | Sources/SCApi/Api.swift:58-79 | the scheme is the endpoint's scheme; a host without "/" is kept unchanged and the path is version + path; the query items are those of QueryItemsFor |
| UrlBuilder.HostWithSlash | Sources/SCApi/Api.swift:61-64 | for a host a + "/" + b with a slash-free a, the network host is a and the path is "/" + (b up to its first "/") + version + path |
| UrlBuilder.LaterSegmentsIgnored | Sources/SCApi/Api.swift:62-64 | endpoints whose hosts agree up to the second "/" resolve to the same components |
| UrlBuilder.UrlFrom | Sources/SCApi/Api.swift:80-84 | succeeds exactly when the assembled components form a URL, returns that URL, and otherwise fails with invalidURL and no other error |
| UrlBuilder.ResolveUrl | Sources/SCApi/Api.swift:57-85 | the step-by-step build (scheme, host and path, then lazily created and extended query items) yields exactly UrlFrom's result |
| Transport.Dispatch | Sources/SCApi/Api.swift:111-122 | keeps Obeys; on success it returns the reply body unchanged; unknown exactly for a non-HTTP response; a server error only for a non-2xx HTTP reply |
| Transport.Discard | Sources/SCApi/Api.swift:132-143 | a body-less verb succeeds exactly when the dispatch does and throws the same error otherwise |
| Transport.SessionData | Sources/SCApi/Api.swift:107-123 | sends a GET without a body and keeps Obeys for its reply; on success, returns the reply body |
| Transport.SessionDelete | Sources/SCApi/Api.swift:126-144 | sends a DELETE with the given body and keeps Obeys for its reply |
| Transport.SessionPost | Sources/SCApi/Api.swift:146-164 | sends a POST with the given body and keeps Obeys for its reply; on success, returns the reply body |
| Transport.SessionPostNoResponse | Sources/SCApi/Api.swift:166-184 | sends a POST with the given body and keeps Obeys for its reply |
| Transport.Session | Sources/SCApi/Api.swift:106-205 | the URLSession conformance: every provider call keeps Obeys for the request it sends (GET without a body for data; POST, POST, DELETE, PUT with the given body); data and post return the reply body on success |
| Transport.SessionPut | Sources/SCApi/Api.swift:186-204 | sends a PUT with the given body and keeps Obeys for its reply |
| Client.LiftCodec | Sources/SCApi/Api.swift:16 | a codec's result is passed on: the same value, or its error tagged as a codec error |
| Client.Get | Sources/SCApi/Api.swift:11-18 | invalidURL first; then the provider's data error unchanged; then the decoder's outcome on the reply |
| Client.Delete | Sources/SCApi/Api.swift:20-23 | invalidURL first; otherwise the provider's DELETE with no body |
| Client.DeleteModel | Sources/SCApi/Api.swift:25-29 | invalidURL first; then the encoding error; otherwise the provider's DELETE carrying the encoded model |
| Client.PostData | Sources/SCApi/Api.swift:96-103 | (also post(endpoint:data:), lines 31-33) invalidURL first; then the provider's POST error unchanged; then the decoder's outcome on the reply |
| Client.PostModel | Sources/SCApi/Api.swift:35-38 | the JSON encoding error first; otherwise PostData with the JSON-encoded model |
| Client.PostModelNoResponse | Sources/SCApi/Api.swift:40-44 | the JSON encoding error first; then invalidURL; otherwise the provider's body-less POST carrying the encoded model |
| Client.PostUrlEncoded | Sources/SCApi/Api.swift:46-49 | the form-encoding error first; otherwise PostData with the form-encoded model |
| Client.Put | Sources/SCApi/Api.swift:51-55 | invalidURL first; then the encoding error; otherwise the provider's PUT carrying the encoded model |
| Client.InvalidUrlStopsBeforeTransport | Sources/SCApi/Api.swift:11-55 | for an endpoint without a URL, get, both deletes, postData and put end with invalidURL whatever the provider, encoder and decoder do |
| Client.EncodingFailureWins | Sources/SCApi/Api.swift:35-49 | when encoding fails, post(model) (both overloads) and postURLEncoder end with that error whatever the endpoint and provider |
| Client.PostAndPutOrderDiffer | Sources/SCApi/Api.swift:40-55 | with both an invalid URL and a failing encoder, post(model) reports the encoder's own error and put reports invalidURL |
| Client.TransportFailureSkipsDecoding | Sources/SCApi/Api.swift:11-18 | in get and postData, a failed provider call is the result unchanged, so no decoder is consulted |
| Client.GetOverSession | Sources/SCApi/Api.swift:11-18 | over the URLSession binding, get succeeds exactly when the URL forms, the GET gets a 2xx reply and the body decodes; the value is the decoded body |
| Client.DeleteNoContent | Sources/SCApi/Api.swift:126-144 | a 204 reply to the body-less DELETE is a success |
| Client.NotFoundCarriesPayload | Sources/SCApi/Api.swift:111-119 | a 404 reply whose body decodes to errorCode 42 makes get throw exactly that payload |

## Left out

- Network I/O and `async` suspension: `URLSession.shared.data(for:)` is a
  parameter (`Platform`) from request to reply or network error. Cancellation
  and timeouts belong to the platform.
- `URLComponents.url` and the percent-encoding of query items: Foundation's
  RFC 3986 implementation cannot be seen. Its verdict is the parameter
  `formsUrl`, and a URL is identified with the components it was made from.
- Setting `URLComponents.scheme` (Api.swift:59) is treated as total. Foundation
  raises an exception when the scheme string is not valid scheme syntax, so
  an endpoint with such a scheme traps in `url(from:)`. The model does not
  capture that trap: it hands such components to `formsUrl`, so the result is
  a URL or `invalidURL`.
- `JSONEncoder`, `JSONDecoder`, `URLEncodedFormEncoder` and the custom ISO 8601
  date strategies: these are foreign codecs, so they are `Result`-returning
  parameters. SCApi/Sources/SCApi/Extensions/DecodingStrategy.swift and
  Sources/SCApi/Extensions/DateFormatter.swift are not part of this model.
- The `headers` instance field of `Api`: nothing reads it. The per-call
  headers are carried into the request unchanged.
- Swift dictionary iteration order is unspecified. The model takes the
  parameters as a sequence in the order the iteration yields them.
- Text is a sequence of characters. Swift compares and splits by grapheme
  cluster, so the model does not cover a "/" fused with a combining mark into
  one character.
- `post(endpoint:data:headers:)` forwards to `postData` with the same
  arguments. It is represented by `Client.PostData`, not by a second member.
- `Api.init(networkProvider:)` only stores its provider. The verbs take the
  `Provider` as a parameter instead.
