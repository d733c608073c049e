# PiNetworking in Dafny

A model of the request/response core of PiNetworking, a small Swift HTTP layer.
An `Endpoint` describes one call: scheme (default `"https"`), host, path,
method and optional additional headers. `urlRequest(for:params:)` turns it into a
`URLRequest`. The two `sendRequest` calls send that request and resolve the
response into a `Result` carrying either the decoded value or one of four
`APIError` kinds: `urlError`, `unknown`, `decoding` or `known(ErrorResponse)`.

The model has three modules:

- `Wrappers` (`wrappers.dfy`) holds `Option` and `Result`.
- `PiNetworkingTypes` (`pi_networking_types.dfy`) models `PiNetworkingTypes.swift`.
  It holds the error taxonomy with `code` and `message`, `RequestMethod` and its raw
  values, and the endpoint with its default scheme and header overlay. The getter's
  in-place `Dictionary.merge` is modelled as a method with a loop (`Merge`).
  `BuildHeaders` mirrors the getter step by step and is proved equal to `Endpoint.Headers`.
- `PiNetworking` (`pi_networking.dfy`) models `PiNetworking.swift`.
  `UrlRequest`, `SendRequest` (typed) and `SendRequestVoid` are pure functions.
  The collaborators are passed in as function values in a `Service`:
  - URL composition (`URLComponents.url`);
  - JSON serialisation of the parameters (`try? JSONSerialization.data`);
  - the transport (`URLSession.data(for:)`);
  - the decoder for the error envelope.

  The decoder for the response type `T` is a separate argument.
  `FallbackChain` is an independent reference definition of the decode order: an
  ordered list of fallible attempts where the first success wins. The lemma
  `ReturnedBodyIsFallbackChain` shows both calls follow it.

The `unknown` message is spelled "An unknown error occured." as in the program.
The typed call tries `T` before the error envelope, so a body that decodes as both
is a success (`SuccessPrecedesErrorEnvelope`); only the untyped call always reports
an envelope as `known`.

## Model

| member | source | states |
|---|---|---|
| PiNetworkingTypes.APIError.Code | Sources/PiNetworking/PiNetworkingTypes.swift:27-38 | urlError, unknown and decoding have the fixed codes "urlError", "unknown" and "decoding"; known(e) has e.error.code |
| PiNetworkingTypes.APIError.Message | Sources/PiNetworking/PiNetworkingTypes.swift:40-51 | unknown has "An unknown error occured.", decoding has "Could not decode error response.", urlError has "", and known(e) has e.error.message |
| PiNetworkingTypes.CodeIdentifiesLocalError | Sources/PiNetworking/PiNetworkingTypes.swift:27-34 | two payload-free errors have equal codes if and only if they are the same error |
| PiNetworkingTypes.RequestMethod.RawValue | Sources/PiNetworking/PiNetworkingTypes.swift:54-58 | delete, get and post have the raw values "DELETE", "GET" and "POST" |
| PiNetworkingTypes.FromRawValue | Sources/PiNetworking/PiNetworkingTypes.swift:54-58 | the derived failable initialiser returns a method whose raw value is its argument, and returns nothing for any string other than the three raw values |
| PiNetworkingTypes.RawValueRoundTrip | Sources/PiNetworking/PiNetworkingTypes.swift:54-58 | raw value and initialiser round-trip in both directions, so the three raw values are pairwise distinct |
| PiNetworkingTypes.Endpoint.Scheme | Sources/PiNetworking/PiNetworkingTypes.swift:69-71 | the scheme is "https" unless the endpoint supplies its own, which is then used unchanged |
| PiNetworkingTypes.Endpoint.Headers | Sources/PiNetworking/PiNetworkingTypes.swift:73-83 | with no additional headers the result is exactly the two JSON defaults; otherwise its keys are the union of both key sets, every additional value wins, and every non-colliding default is kept |
| PiNetworkingTypes.Merge | Sources/PiNetworking/PiNetworkingTypes.swift:79 | merging one entry at a time gives the union of both key sets: colliding keys get combine(old, new), other keys keep their only value |
| PiNetworkingTypes.BuildHeaders | Sources/PiNetworking/PiNetworkingTypes.swift:73-83 | the getter's in-place merge with the closure that keeps the new value yields exactly Endpoint.Headers, the right-biased overlay |
| PiNetworkingTypes.HeadersOverlayExample | Sources/PiNetworking/PiNetworkingTypes.swift:73-83 | additional {"Accept": "text/plain", "X-Custom": "v"} gives {"Content-Type": "application/json", "Accept": "text/plain", "X-Custom": "v"} |
| PiNetworking.UrlRequest | Sources/PiNetworking/PiNetworking.swift:63-81 | the result is absent exactly when URL composition fails. Otherwise the URL is the composed one, the method is the endpoint method's raw value and the header fields equal the endpoint's headers. There is no body for empty params; for non-empty params the body is the serialisation result, which may be absent |
| PiNetworking.SendRequest | Sources/PiNetworking/PiNetworking.swift:17-37 | urlError exactly when no request is built; unknown exactly when the transport fails; success exactly when the body decodes as T, carrying that value; known(e) only when T fails and e is the decoded envelope; decoding only when both decodes fail |
| PiNetworking.SendRequestVoid | Sources/PiNetworking/PiNetworking.swift:39-57 | never decoding; urlError exactly when no request is built; unknown exactly when the transport fails; success exactly when the returned body is not an error envelope; known(e) carries the decoded envelope |
| PiNetworking.UrlErrorSkipsTransport | Sources/PiNetworking/PiNetworking.swift:20-22 | when no request can be built, both calls give urlError whatever the transport is, so the transport is never consulted |
| PiNetworking.StatusIgnored | Sources/PiNetworking/PiNetworking.swift:25 | two transports that return the same body with any statuses give the same result in both calls |
| PiNetworking.SuccessPrecedesErrorEnvelope | Sources/PiNetworking/PiNetworking.swift:27-30 | a body that decodes both as T and as an error envelope is a success of the typed call, and known in the untyped call |
| PiNetworking.KnownErrorCarriesServerText | Sources/PiNetworking/PiNetworking.swift:29-30 | an envelope {code, message} that does not decode as T gives, in both calls, an error whose code and message are the server's |
| PiNetworking.FirstHitDecides | Sources/PiNetworking/PiNetworking.swift:27-33 | in an ordered chain of decode attempts, the first attempt that succeeds decides the result |
| PiNetworking.NoHitFallsBack | Sources/PiNetworking/PiNetworking.swift:27-33 | when every attempt of the chain fails, the result is the fallback |
| PiNetworking.ReturnedBodyIsFallbackChain | Sources/PiNetworking/PiNetworking.swift:27-33 | once the transport returns, the typed call equals the chain [T, error envelope] with fallback decoding, and the untyped call equals the chain [error envelope] with fallback success |
| PiNetworking.UrlRequestIgnoresTransportAndDecoder | Sources/PiNetworking/PiNetworking.swift:63-81 | the request depends only on the endpoint, the params, URL composition and serialisation; the transport and the decoder play no part in building it |

## Left out

- The URL session, `async`/`await` suspension and the `shared` instance are not modelled. The transport is a function from request to outcome.
- Transport errors are not distinguished; all of them map to `unknown`.
- The `print` diagnostics on the failure paths are observability only and are not modelled.
- `NetworkService` (the type of `shared`) is not part of this model.
- The JSON decoder's configuration is not modelled: snake_case key conversion and the date format belong to Foundation. Decode results are opaque functions of the body bytes.
- The rules of `URLComponents` for a valid URL are not modelled. Composition is an opaque partial function of scheme, host and path.
- `JSONSerialization` is not modelled. Serialisation is an opaque partial function of the parameters.
- PiNetworking.UrlRequest: does not model the two inputs that trap in the program. Setting `URLComponents.scheme` to an invalid scheme raises an exception before `.url` is reached, and `JSONSerialization` raises an exception (which `try?` does not catch) for parameters that are not valid JSON; both end the process. `composeUrl` and `serialize` stand only for the outcomes that do not trap.
- The parameter values (`Any`) are a type parameter; nothing is assumed about them.
- The unused `url(host:_:)` helper is not modelled. It force-unwraps and would trap on an invalid string.
- The `responseType` argument of the typed call is not modelled. It is unused by the code; the decoder for `T` is passed in directly.
- The URL session's response is reduced to an integer status code, which no call reads.
- Foundation treats header field names case-insensitively in `URLRequest`. The model keeps the header map as given.
