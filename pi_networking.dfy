/** Request building and response resolution of PiNetworking
    (Sources/PiNetworking/PiNetworking.swift). Foundation's URL composition,
    JSON serialisation, the URL session and the JSON decoder are opaque
    capabilities handed in as function values. */
module PiNetworking {
  import opened Wrappers
  import opened PiNetworkingTypes

  newtype byte = x: int | 0 <= x < 256
  type Bytes = seq<byte>

  /** What `URLComponents` is given: scheme, host and path. */
  datatype UrlComponents = UrlComponents(scheme: string, host: string, path: string)

  /** A composed absolute URL. */
  type Url = string

  /** A transport-ready request: `httpBody` is `None` when no body is attached. */
  datatype Request = Request(
    url: Url,
    httpMethod: string,
    allHTTPHeaderFields: map<string, string>,
    httpBody: Option<Bytes>)

  /** What the URL session gives back: a thrown error, or the body bytes
      with the response's status code. */
  datatype TransportOutcome = Failed | Returned(body: Bytes, status: int)

  /** The collaborators a `PiNetworking` value works with.
      composeUrl: `URLComponents.url`, `None` when the components do not make a URL;
      serialize:  `try? JSONSerialization.data(withJSONObject:)`, `None` on failure;
      send:       `URLSession.data(for:)`;
      decodeError: the JSON decoder applied to the `ErrorResponse` shape. */
  datatype Service<!V> = Service(
    composeUrl: UrlComponents -> Option<Url>,
    serialize: map<string, V> -> Option<Bytes>,
    send: Request -> TransportOutcome,
    decodeError: Bytes -> Option<ErrorResponse>)

  /** `urlRequest(for:params:)`: compose the URL, then set the method, all
      header fields and, for non-empty parameters, the serialised body. */
  function UrlRequest<V>(service: Service<V>, endpoint: Endpoint, params: map<string, V>): (r: Option<Request>)
    ensures r.None? <==> service.composeUrl(UrlComponents(endpoint.Scheme(), endpoint.host, endpoint.url)).None?
    ensures r.Some? ==> Some(r.value.url) == service.composeUrl(UrlComponents(endpoint.Scheme(), endpoint.host, endpoint.url))
    ensures r.Some? ==> r.value.httpMethod == endpoint.requestMethod.RawValue()
    ensures r.Some? ==> r.value.allHTTPHeaderFields == endpoint.Headers()
    ensures r.Some? && |params| == 0 ==> r.value.httpBody.None?
    ensures r.Some? && |params| > 0 ==> r.value.httpBody == service.serialize(params)
  {
    var components := UrlComponents(endpoint.Scheme(), endpoint.host, endpoint.url);
    match service.composeUrl(components)
    case None => None
    case Some(url) =>
      var body := if |params| != 0 then service.serialize(params) else None;
      Some(Request(url, endpoint.requestMethod.RawValue(), endpoint.Headers(), body))
  }

  /** The typed `sendRequest(endpoint:params:responseType:)`; `decode` is the
      JSON decoder applied to the caller's response type `T`. */
  function SendRequest<T, V>(service: Service<V>, endpoint: Endpoint, params: map<string, V>, decode: Bytes -> Option<T>)
    : (r: Result<T, APIError>)
    // no request can be built exactly when the result is urlError
    ensures r == Failure(UrlError) <==> UrlRequest(service, endpoint, params).None?
    // the transport threw exactly when the result is unknown
    ensures r == Failure(Unknown) <==>
      (var request := UrlRequest(service, endpoint, params);
       request.Some? && service.send(request.value).Failed?)
    // from here on the transport returned a body
    ensures r.Success? || r == Failure(Decoding) || r.error.Known? ==>
      (var request := UrlRequest(service, endpoint, params);
       request.Some? && service.send(request.value).Returned?)
    ensures r.Success? <==>
      (var request := UrlRequest(service, endpoint, params);
       request.Some? && service.send(request.value).Returned? &&
       decode(service.send(request.value).body).Some?)
    ensures r.Success? ==>
      decode(service.send(UrlRequest(service, endpoint, params).value).body) == Some(r.value)
    ensures r.Failure? && r.error.Known? ==>
      (var body := service.send(UrlRequest(service, endpoint, params).value).body;
       decode(body).None? && service.decodeError(body) == Some(r.error.response))
    ensures r == Failure(Decoding) ==>
      (var body := service.send(UrlRequest(service, endpoint, params).value).body;
       decode(body).None? && service.decodeError(body).None?)
  {
    match UrlRequest(service, endpoint, params)
    case None => Failure(UrlError)
    case Some(request) =>
      match service.send(request)
      case Failed => Failure(Unknown)
      case Returned(data, _) =>
        match decode(data)
        case Some(decoded) => Success(decoded)
        case None =>
          match service.decodeError(data)
          case Some(error) => Failure(Known(error))
          case None => Failure(Decoding)
  }

  /** The untyped `sendRequest(endpoint:params:)`: only the error envelope is
      looked for; any other body is a bare success. */
  function SendRequestVoid<V>(service: Service<V>, endpoint: Endpoint, params: map<string, V>)
    : (r: Result<(), APIError>)
    ensures r != Failure(Decoding)
    ensures r == Failure(UrlError) <==> UrlRequest(service, endpoint, params).None?
    ensures r == Failure(Unknown) <==>
      (var request := UrlRequest(service, endpoint, params);
       request.Some? && service.send(request.value).Failed?)
    ensures r.Success? <==>
      (var request := UrlRequest(service, endpoint, params);
       request.Some? && service.send(request.value).Returned? &&
       service.decodeError(service.send(request.value).body).None?)
    ensures r.Failure? && r.error.Known? ==>
      (var request := UrlRequest(service, endpoint, params);
       request.Some? && service.send(request.value).Returned? &&
       service.decodeError(service.send(request.value).body) == Some(r.error.response))
  {
    match UrlRequest(service, endpoint, params)
    case None => Failure(UrlError)
    case Some(request) =>
      match service.send(request)
      case Failed => Failure(Unknown)
      case Returned(data, _) =>
        match service.decodeError(data)
        case Some(error) => Failure(Known(error))
        case None => Success(())
  }

  /** When no request can be built, both calls give urlError whatever the
      transport would have done: the transport is never consulted. */
  lemma UrlErrorSkipsTransport<T, V>(service: Service<V>, send': Request -> TransportOutcome,
                                     endpoint: Endpoint, params: map<string, V>, decode: Bytes -> Option<T>)
    requires UrlRequest(service, endpoint, params).None?
    ensures SendRequest(service, endpoint, params, decode) == Failure(UrlError)
    ensures SendRequest(service.(send := send'), endpoint, params, decode) == Failure(UrlError)
    ensures SendRequestVoid(service, endpoint, params) == Failure(UrlError)
    ensures SendRequestVoid(service.(send := send'), endpoint, params) == Failure(UrlError)
  {
  }

  /** The status code is never looked at: two transports that return the
      same body for the request lead to the same result in both calls. */
  lemma StatusIgnored<T, V>(service: Service<V>, send': Request -> TransportOutcome,
                            endpoint: Endpoint, params: map<string, V>, decode: Bytes -> Option<T>)
    requires forall request :: service.send(request).Returned? ==>
      send'(request).Returned? && send'(request).body == service.send(request).body
    requires forall request :: service.send(request).Failed? <==> send'(request).Failed?
    ensures SendRequest(service, endpoint, params, decode) == SendRequest(service.(send := send'), endpoint, params, decode)
    ensures SendRequestVoid(service, endpoint, params) == SendRequestVoid(service.(send := send'), endpoint, params)
  {
  }

  /** A body that decodes as the response type is a success even when it is
      also a valid error envelope: the success shape is tried first. */
  lemma SuccessPrecedesErrorEnvelope<T, V>(service: Service<V>, endpoint: Endpoint, params: map<string, V>,
                                           decode: Bytes -> Option<T>, request: Request, body: Bytes, status: int)
    requires UrlRequest(service, endpoint, params) == Some(request)
    requires service.send(request) == Returned(body, status)
    requires decode(body).Some? && service.decodeError(body).Some?
    ensures SendRequest(service, endpoint, params, decode) == Success(decode(body).value)
    ensures SendRequestVoid(service, endpoint, params) == Failure(Known(service.decodeError(body).value))
  {
  }

  /** An error envelope that does not also decode as the response type
      reaches the caller with the server's code and message unchanged. */
  lemma KnownErrorCarriesServerText<T, V>(service: Service<V>, endpoint: Endpoint, params: map<string, V>,
                                          decode: Bytes -> Option<T>, request: Request, body: Bytes,
                                          status: int, code: string, message: string)
    requires UrlRequest(service, endpoint, params) == Some(request)
    requires service.send(request) == Returned(body, status)
    requires decode(body).None?
    requires service.decodeError(body) == Some(ErrorResponse(DecodedError(code, message)))
    ensures var r := SendRequest(service, endpoint, params, decode);
      r.Failure? && r.error.Code() == code && r.error.Message() == message
    ensures var r := SendRequestVoid(service, endpoint, params);
      r.Failure? && r.error.Code() == code && r.error.Message() == message
  {
  }

  /** An ordered chain of fallible decode attempts: the first attempt that
      yields a value decides, and `fallback` is the result when none does. */
  function FallbackChain<R>(attempts: seq<Bytes -> Option<R>>, fallback: R, body: Bytes): (r: R)
  {
    if attempts == [] then fallback
    else match attempts[0](body)
      case Some(v) => v
      case None => FallbackChain(attempts[1..], fallback, body)
  }

  /** The chain short-circuits: the first attempt that succeeds decides. */
  lemma {:induction false} FirstHitDecides<R>(attempts: seq<Bytes -> Option<R>>, fallback: R, body: Bytes, i: nat)
    requires i < |attempts| && attempts[i](body).Some?
    requires forall j :: 0 <= j < i ==> attempts[j](body).None?
    ensures FallbackChain(attempts, fallback, body) == attempts[i](body).value
  {
    if i > 0 {
      assert attempts[0](body).None?;
      forall j | 0 <= j < i - 1
        ensures attempts[1..][j](body).None?
      {
        assert attempts[1..][j] == attempts[j + 1];
      }
      FirstHitDecides(attempts[1..], fallback, body, i - 1);
    }
  }

  /** The chain falls back when every attempt fails. */
  lemma {:induction false} NoHitFallsBack<R>(attempts: seq<Bytes -> Option<R>>, fallback: R, body: Bytes)
    requires forall j :: 0 <= j < |attempts| ==> attempts[j](body).None?
    ensures FallbackChain(attempts, fallback, body) == fallback
  {
    if attempts != [] {
      assert attempts[0](body).None?;
      forall j | 0 <= j < |attempts| - 1
        ensures attempts[1..][j](body).None?
      {
        assert attempts[1..][j] == attempts[j + 1];
      }
      NoHitFallsBack(attempts[1..], fallback, body);
    }
  }

  /** The attempt "decode as the response type", reporting a success. */
  function DecodeAsSuccess<T>(decode: Bytes -> Option<T>): (attempt: Bytes -> Option<Result<T, APIError>>)
  {
    (body: Bytes) => match decode(body) case Some(v) => Some(Success(v)) case None => None
  }

  /** The attempt "decode as the error envelope", reporting a known error. */
  function DecodeAsKnownError<T>(decodeError: Bytes -> Option<ErrorResponse>): (attempt: Bytes -> Option<Result<T, APIError>>)
  {
    (body: Bytes) => match decodeError(body) case Some(e) => Some(Failure(Known(e))) case None => None
  }

  /** Once the transport returned, the typed call is the chain
      [response type, error envelope] with fallback decoding, and the untyped
      call is the chain [error envelope] with fallback a bare success. */
  lemma ReturnedBodyIsFallbackChain<T, V>(service: Service<V>, endpoint: Endpoint, params: map<string, V>,
                                          decode: Bytes -> Option<T>, request: Request, body: Bytes, status: int)
    requires UrlRequest(service, endpoint, params) == Some(request)
    requires service.send(request) == Returned(body, status)
    ensures SendRequest(service, endpoint, params, decode)
      == FallbackChain([DecodeAsSuccess(decode), DecodeAsKnownError(service.decodeError)], Failure(Decoding), body)
    ensures SendRequestVoid(service, endpoint, params)
      == FallbackChain([DecodeAsKnownError(service.decodeError)], Success(()), body)
  {
    var typed := [DecodeAsSuccess(decode), DecodeAsKnownError(service.decodeError)];
    if decode(body).Some? {
      FirstHitDecides(typed, Failure(Decoding), body, 0);
    } else if service.decodeError(body).Some? {
      FirstHitDecides(typed, Failure(Decoding), body, 1);
    } else {
      NoHitFallsBack(typed, Failure(Decoding), body);
    }
    var untyped: seq<Bytes -> Option<Result<(), APIError>>> := [DecodeAsKnownError(service.decodeError)];
    if service.decodeError(body).Some? {
      FirstHitDecides(untyped, Success(()), body, 0);
    } else {
      NoHitFallsBack(untyped, Success(()), body);
    }
  }

  /** The builder reads only URL composition and serialisation: services that
      differ in transport or decoder build the same request. */
  lemma UrlRequestIgnoresTransportAndDecoder<V>(service: Service<V>, endpoint: Endpoint, params: map<string, V>,
                                   service': Service<V>)
    requires service'.composeUrl == service.composeUrl && service'.serialize == service.serialize
    ensures UrlRequest(service, endpoint, params) == UrlRequest(service', endpoint, params)
  {
  }
}
