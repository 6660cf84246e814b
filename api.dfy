/** The client's verbs (`class Api`, Sources/SCApi/Api.swift:3-104): each resolves
    the URL, encodes a body, calls the network provider and decodes the reply,
    in an order fixed per verb. A `try` that throws ends the verb with that error. */
module Client {

  import opened Wrappers
  import opened Errors
  import opened Endpoints
  import opened UrlBuilder
  import opened Transport

  /** `JSONEncoder().encode` or `URLEncodedFormEncoder().encode` on a model. */
  type Encoder<-M> = M -> Result<Data, CodecError>

  /** The two body encoders of `Api`: `dataWithJsonEncoding` (`JSONEncoder`)
      and `dataWithUrlUncodedForm` (`URLEncodedFormEncoder`). */
  datatype BodyEncoders<!M> = BodyEncoders(json: Encoder<M>, form: Encoder<M>)

  /** `JSONDecoder` with the custom ISO 8601 date strategy, decoding a `T`. */
  type Decoder<T> = Data -> Result<T, CodecError>

  /** A codec's error, thrown on unchanged. */
  function LiftCodec<X>(r: Result<X, CodecError>): (l: Result<X, Failure>)
    ensures l.Success? <==> r.Success?
    ensures l.Success? ==> l.value == r.value
    ensures l.Failure? ==> l.error == Codec(r.error)
  {
    match r
    case Success(x) => Success(x)
    case Failure(c) => Failure(Codec(c))
  }

  /** `get(endpoint:headers:)`: URL, then the provider's `data`, then decoding. */
  function Get<T>(provider: Provider, formsUrl: UrlValidity, decode: Decoder<T>,
                  endpoint: Endpoint, headers: Headers): (r: Result<T, Failure>)
    ensures var url := UrlFrom(endpoint, formsUrl);
      && (url.Failure? ==> r == Failure(Local(InvalidURL)))
      && (url.Success? ==> var reply := provider.data(url.value, headers);
            && (reply.Failure? ==> r == Failure(reply.error))
            && (reply.Success? ==> r == LiftCodec(decode(reply.value))))
  {
    var url :- UrlFrom(endpoint, formsUrl);
    var data :- provider.data(url, headers);
    LiftCodec(decode(data))
  }

  /** `delete(endpoint:headers:)`: URL, then a DELETE without a body. */
  function Delete(provider: Provider, formsUrl: UrlValidity,
                  endpoint: Endpoint, headers: Headers): (r: Result<(), Failure>)
    ensures var url := UrlFrom(endpoint, formsUrl);
      && (url.Failure? ==> r == Failure(Local(InvalidURL)))
      && (url.Success? ==> r == provider.delete(url.value, None, headers))
  {
    var url :- UrlFrom(endpoint, formsUrl);
    provider.delete(url, None, headers)
  }

  /** `delete(endpoint:model:headers:)`: URL, then JSON encoding, then a DELETE
      carrying the encoded model. */
  function DeleteModel<M>(provider: Provider, formsUrl: UrlValidity, encoders: BodyEncoders<M>,
                          endpoint: Endpoint, model: M, headers: Headers): (r: Result<(), Failure>)
    ensures var url := UrlFrom(endpoint, formsUrl);
      && (url.Failure? ==> r == Failure(Local(InvalidURL)))
      && (url.Success? && encoders.json(model).Failure? ==> r == Failure(Codec(encoders.json(model).error)))
      && (url.Success? && encoders.json(model).Success? ==>
            r == provider.delete(url.value, Some(encoders.json(model).value), headers))
  {
    var url :- UrlFrom(endpoint, formsUrl);
    var body :- LiftCodec(encoders.json(model));
    provider.delete(url, Some(body), headers)
  }

  /** `postData(endpoint:data:headers:)`, which `post(endpoint:data:headers:)`
      forwards to unchanged: URL, then a POST returning data, then decoding. */
  function PostData<T>(provider: Provider, formsUrl: UrlValidity, decode: Decoder<T>,
                       endpoint: Endpoint, body: Option<Data>, headers: Headers): (r: Result<T, Failure>)
    ensures var url := UrlFrom(endpoint, formsUrl);
      && (url.Failure? ==> r == Failure(Local(InvalidURL)))
      && (url.Success? ==> var reply := provider.post(url.value, body, headers);
            && (reply.Failure? ==> r == Failure(reply.error))
            && (reply.Success? ==> r == LiftCodec(decode(reply.value))))
  {
    var url :- UrlFrom(endpoint, formsUrl);
    var data :- provider.post(url, body, headers);
    LiftCodec(decode(data))
  }

  /** `post(endpoint:model:headers:) -> T`: JSON encoding first, then `postData`. */
  function PostModel<M, T>(provider: Provider, formsUrl: UrlValidity, encoders: BodyEncoders<M>,
                           decode: Decoder<T>, endpoint: Endpoint, model: M, headers: Headers): (r: Result<T, Failure>)
    ensures encoders.json(model).Failure? ==> r == Failure(Codec(encoders.json(model).error))
    ensures encoders.json(model).Success? ==>
      r == PostData(provider, formsUrl, decode, endpoint, Some(encoders.json(model).value), headers)
  {
    var body :- LiftCodec(encoders.json(model));
    PostData(provider, formsUrl, decode, endpoint, Some(body), headers)
  }

  /** `post(endpoint:model:headers:)` without a result: JSON encoding, then URL,
      then a POST that returns nothing. */
  function PostModelNoResponse<M>(provider: Provider, formsUrl: UrlValidity, encoders: BodyEncoders<M>,
                                  endpoint: Endpoint, model: M, headers: Headers): (r: Result<(), Failure>)
    ensures var url := UrlFrom(endpoint, formsUrl);
      && (encoders.json(model).Failure? ==> r == Failure(Codec(encoders.json(model).error)))
      && (encoders.json(model).Success? && url.Failure? ==> r == Failure(Local(InvalidURL)))
      && (encoders.json(model).Success? && url.Success? ==>
            r == provider.postNoResponse(url.value, Some(encoders.json(model).value), headers))
  {
    var body :- LiftCodec(encoders.json(model));
    var url :- UrlFrom(endpoint, formsUrl);
    provider.postNoResponse(url, Some(body), headers)
  }

  /** `postURLEncoder(endpoint:model:headers:)`: form encoding first, then `postData`. */
  function PostUrlEncoded<M, T>(provider: Provider, formsUrl: UrlValidity, encoders: BodyEncoders<M>,
                                decode: Decoder<T>, endpoint: Endpoint, model: M, headers: Headers): (r: Result<T, Failure>)
    ensures encoders.form(model).Failure? ==> r == Failure(Codec(encoders.form(model).error))
    ensures encoders.form(model).Success? ==>
      r == PostData(provider, formsUrl, decode, endpoint, Some(encoders.form(model).value), headers)
  {
    var body :- LiftCodec(encoders.form(model));
    PostData(provider, formsUrl, decode, endpoint, Some(body), headers)
  }

  /** `put(endpoint:model:headers:)`: URL, then JSON encoding, then a PUT. */
  function Put<M>(provider: Provider, formsUrl: UrlValidity, encoders: BodyEncoders<M>,
                  endpoint: Endpoint, model: M, headers: Headers): (r: Result<(), Failure>)
    ensures var url := UrlFrom(endpoint, formsUrl);
      && (url.Failure? ==> r == Failure(Local(InvalidURL)))
      && (url.Success? && encoders.json(model).Failure? ==> r == Failure(Codec(encoders.json(model).error)))
      && (url.Success? && encoders.json(model).Success? ==>
            r == provider.put(url.value, Some(encoders.json(model).value), headers))
  {
    var url :- UrlFrom(endpoint, formsUrl);
    var body :- LiftCodec(encoders.json(model));
    provider.put(url, Some(body), headers)
  }

  /** The verbs that resolve the URL first never reach the provider (nor the
      encoder) for an endpoint without a URL: the outcome is `invalidURL`
      whatever the provider, encoder and decoder are. */
  lemma InvalidUrlStopsBeforeTransport<M, T>(provider: Provider, formsUrl: UrlValidity, encoders: BodyEncoders<M>,
                                             decode: Decoder<T>, endpoint: Endpoint, model: M,
                                             body: Option<Data>, headers: Headers)
    requires !formsUrl(ComponentsFor(endpoint))
    ensures Get(provider, formsUrl, decode, endpoint, headers) == Failure(Local(InvalidURL))
    ensures Delete(provider, formsUrl, endpoint, headers) == Failure(Local(InvalidURL))
    ensures DeleteModel(provider, formsUrl, encoders, endpoint, model, headers) == Failure(Local(InvalidURL))
    ensures PostData(provider, formsUrl, decode, endpoint, body, headers) == Failure(Local(InvalidURL))
    ensures Put(provider, formsUrl, encoders, endpoint, model, headers) == Failure(Local(InvalidURL))
  {
  }

  /** The verbs that encode first report an encoding failure whatever the
      endpoint, so it wins over an invalid URL. */
  lemma EncodingFailureWins<M, T>(provider: Provider, formsUrl: UrlValidity, encoders: BodyEncoders<M>,
                                  decode: Decoder<T>, endpoint: Endpoint, model: M, headers: Headers)
    ensures encoders.json(model).Failure? ==>
      && PostModel(provider, formsUrl, encoders, decode, endpoint, model, headers) == Failure(Codec(encoders.json(model).error))
      && PostModelNoResponse(provider, formsUrl, encoders, endpoint, model, headers) == Failure(Codec(encoders.json(model).error))
    ensures encoders.form(model).Failure? ==>
      PostUrlEncoded(provider, formsUrl, encoders, decode, endpoint, model, headers) == Failure(Codec(encoders.form(model).error))
  {
  }

  /** `post(model)` and `put` disagree on which error wins when both the URL
      and the encoding fail. */
  lemma PostAndPutOrderDiffer<M>(provider: Provider, formsUrl: UrlValidity, encoders: BodyEncoders<M>,
                                 endpoint: Endpoint, model: M, headers: Headers)
    requires !formsUrl(ComponentsFor(endpoint)) && encoders.json(model).Failure?
    ensures PostModelNoResponse(provider, formsUrl, encoders, endpoint, model, headers)
         == Failure(Codec(encoders.json(model).error))
    ensures Put(provider, formsUrl, encoders, endpoint, model, headers) == Failure(Local(InvalidURL))
  {
  }

  /** In `get` and `postData` a failed transport call is passed on unchanged and
      the decoder is never consulted: the outcome is the same for every decoder. */
  lemma TransportFailureSkipsDecoding<T>(provider: Provider, formsUrl: UrlValidity, decode: Decoder<T>,
                                         endpoint: Endpoint, body: Option<Data>, headers: Headers)
    requires formsUrl(ComponentsFor(endpoint))
    ensures var url := Url(ComponentsFor(endpoint));
      provider.data(url, headers).Failure? ==>
        Get(provider, formsUrl, decode, endpoint, headers) == Failure(provider.data(url, headers).error)
    ensures var url := Url(ComponentsFor(endpoint));
      provider.post(url, body, headers).Failure? ==>
        PostData(provider, formsUrl, decode, endpoint, body, headers) == Failure(provider.post(url, body, headers).error)
  {
  }

  /** `get` over the `URLSession` binding, end to end: it succeeds exactly when
      the endpoint has a URL, the GET for it gets a 2xx reply and the reply body
      decodes; the value is then the decoded body. */
  lemma GetOverSession<T>(platform: Platform, decodeError: ErrorDecoder, formsUrl: UrlValidity,
                          decode: Decoder<T>, endpoint: Endpoint, headers: Headers)
    ensures var r := Get(Session(platform, decodeError), formsUrl, decode, endpoint, headers);
      var reply := platform(Request(Url(ComponentsFor(endpoint)), GET, None, headers));
      && (r.Success? <==> formsUrl(ComponentsFor(endpoint)) && Succeeded(reply) && decode(reply.value.body).Success?)
      && (r.Success? ==> r.value == decode(reply.value.body).value)
  {
  }

  /** A 204 reply to the body-less DELETE is a success. */
  lemma DeleteNoContent(platform: Platform, decodeError: ErrorDecoder, formsUrl: UrlValidity,
                        endpoint: Endpoint, headers: Headers, body: Data)
    requires formsUrl(ComponentsFor(endpoint))
    requires platform(Request(Url(ComponentsFor(endpoint)), DELETE, None, headers)) == Success(Response(body, Some(204)))
    ensures Delete(Session(platform, decodeError), formsUrl, endpoint, headers) == Success(())
  {
  }

  /** A 404 reply whose body decodes to an error payload with code 42 makes
      `get` throw that payload. */
  lemma NotFoundCarriesPayload<T>(platform: Platform, decodeError: ErrorDecoder, formsUrl: UrlValidity,
                                  decode: Decoder<T>, endpoint: Endpoint, headers: Headers, body: Data)
    requires formsUrl(ComponentsFor(endpoint))
    requires platform(Request(Url(ComponentsFor(endpoint)), GET, None, headers)) == Success(Response(body, Some(404)))
    requires decodeError(body) == Success(SCAPIError(Some(42), None, Some(["id"])))
    ensures Get(Session(platform, decodeError), formsUrl, decode, endpoint, headers)
         == Failure(Server(SCAPIError(Some(42), None, Some(["id"]))))
  {
  }
}
