/** The error taxonomy, the HTTP method enumeration and the endpoint
    descriptor of PiNetworking (Sources/PiNetworking/PiNetworkingTypes.swift). */
module PiNetworkingTypes {
  import opened Wrappers

  /** The inner object `{"code": ..., "message": ...}` of a server error envelope. */
  datatype DecodedError = DecodedError(code: string, message: string)

  /** The server error envelope `{"error": {"code": ..., "message": ...}}`. */
  datatype ErrorResponse = ErrorResponse(error: DecodedError)

  /** The four ways a call can fail. */
  datatype APIError = Unknown | UrlError | Decoding | Known(response: ErrorResponse)
  {
    /** The code shown for an error: a fixed word for the three local kinds,
        the server's own code for a known error. */
    function Code(): (c: string)
      ensures UrlError? ==> c == "urlError"
      ensures Unknown? ==> c == "unknown"
      ensures Decoding? ==> c == "decoding"
      ensures Known? ==> c == response.error.code
    {
      match this
      case UrlError => "urlError"
      case Unknown => "unknown"
      case Decoding => "decoding"
      case Known(e) => e.error.code
    }

    /** The message shown for an error; the server's own message for a known
        error. The spelling "occured" is the program's. */
    function Message(): (m: string)
      ensures Unknown? ==> m == "An unknown error occured."
      ensures Decoding? ==> m == "Could not decode error response."
      ensures Known? ==> m == response.error.message
      ensures UrlError? ==> m == ""
    {
      match this
      case Unknown => "An unknown error occured."
      case Decoding => "Could not decode error response."
      case Known(e) => e.error.message
      case UrlError => ""
    }
  }

  /** A payload-free error is identified by its code alone. */
  lemma CodeIdentifiesLocalError(a: APIError, b: APIError)
    requires !a.Known? && !b.Known?
    ensures a.Code() == b.Code() <==> a == b
  {
    if a != b {
      // The three fixed codes differ in length or in their first letter.
      assert a.Code()[0] != b.Code()[0] || |a.Code()| != |b.Code()|;
    }
  }

  /** HTTP request methods, with their raw string values. */
  datatype RequestMethod = Delete | Get | Post
  {
    function RawValue(): (s: string)
      ensures Delete? ==> s == "DELETE"
      ensures Get? ==> s == "GET"
      ensures Post? ==> s == "POST"
    {
      match this
      case Delete => "DELETE"
      case Get => "GET"
      case Post => "POST"
    }
  }

  /** The failable initialiser `RequestMethod(rawValue:)` that Swift derives
      for an enumeration with raw values: it accepts exactly the three raw values. */
  function FromRawValue(s: string): (r: Option<RequestMethod>)
    ensures r.Some? ==> r.value.RawValue() == s
    ensures r.None? ==> s != "DELETE" && s != "GET" && s != "POST"
  {
    if s == "DELETE" then Some(Delete)
    else if s == "GET" then Some(Get)
    else if s == "POST" then Some(Post)
    else None
  }

  /** The raw values round-trip, so no two methods share one. */
  lemma RawValueRoundTrip(m: RequestMethod, s: string)
    ensures FromRawValue(m.RawValue()) == Some(m)
    ensures FromRawValue(s) == Some(m) <==> m.RawValue() == s
  {
  }

  const ContentTypeKey := "Content-Type"
  const AcceptKey := "Accept"
  const JsonMediaType := "application/json"
  const DefaultScheme := "https"

  /** The two headers every request starts from. */
  const DefaultHeaders: map<string, string> := map[ContentTypeKey := JsonMediaType, AcceptKey := JsonMediaType]

  /** The closure `{ (_, new) in new }` handed to `merge`: on a duplicate key
      the incoming value wins. */
  function KeepNew(current: string, incoming: string): (kept: string)
  {
    incoming
  }

  /** A concrete endpoint. `schemeOverride` is `None` when the endpoint does
      not implement `scheme` itself and so takes the protocol's default. */
  datatype Endpoint = Endpoint(
    schemeOverride: Option<string>,
    host: string,
    url: string,
    requestMethod: RequestMethod,
    additionalHeaders: Option<map<string, string>>)
  {
    function Scheme(): (s: string)
      ensures schemeOverride.None? ==> s == DefaultScheme
      ensures schemeOverride.Some? ==> s == schemeOverride.value
    {
      match schemeOverride
      case None => DefaultScheme
      case Some(s) => s
    }

    /** The default headers overlaid by the additional ones. */
    function Headers(): (h: map<string, string>)
      ensures additionalHeaders.None? ==> h == DefaultHeaders
      ensures additionalHeaders.Some? ==> h.Keys == DefaultHeaders.Keys + additionalHeaders.value.Keys
      ensures additionalHeaders.Some? ==>
        forall k :: k in additionalHeaders.value ==> h[k] == additionalHeaders.value[k]
      ensures additionalHeaders.Some? ==>
        forall k :: k in DefaultHeaders && k !in additionalHeaders.value ==> h[k] == DefaultHeaders[k]
    {
      match additionalHeaders
      case None => DefaultHeaders
      case Some(additional) => DefaultHeaders + additional
    }
  }

  /** `Dictionary.merge(_:uniquingKeysWith:)`: every entry of `other` is put
      into `current` one at a time, in no fixed order; a key that is already
      present gets `combine(old value, incoming value)`. */
  method Merge(current: map<string, string>, other: map<string, string>, combine: (string, string) -> string)
    returns (merged: map<string, string>)
    ensures merged.Keys == current.Keys + other.Keys
    ensures forall k :: k in other && k in current ==> merged[k] == combine(current[k], other[k])
    ensures forall k :: k in other && k !in current ==> merged[k] == other[k]
    ensures forall k :: k in current && k !in other ==> merged[k] == current[k]
  {
    merged := current;
    var pending := other.Keys;
    while pending != {}
      invariant pending <= other.Keys
      invariant merged.Keys == current.Keys + (other.Keys - pending)
      invariant forall k :: k in current && k !in other.Keys - pending ==> merged[k] == current[k]
      invariant forall k :: k in other.Keys - pending && k in current ==> merged[k] == combine(current[k], other[k])
      invariant forall k :: k in other.Keys - pending && k !in current ==> merged[k] == other[k]
      decreases pending
    {
      var k :| k in pending;
      if k in merged {
        merged := merged[k := combine(merged[k], other[k])];
      } else {
        merged := merged[k := other[k]];
      }
      pending := pending - {k};
    }
  }

  /** The `headers` getter as the program writes it: start from the defaults
      and merge the additional headers into them in place. */
  method BuildHeaders(endpoint: Endpoint) returns (headers: map<string, string>)
    ensures headers == endpoint.Headers()
  {
    headers := DefaultHeaders;
    if endpoint.additionalHeaders.Some? {
      var additional := endpoint.additionalHeaders.value;
      headers := Merge(headers, additional, KeepNew);
      assert headers == DefaultHeaders + additional;
    }
  }

  /** Overlaying `{"Accept": "text/plain", "X-Custom": "v"}` replaces the
      default Accept value, keeps Content-Type and adds the custom header. */
  lemma HeadersOverlayExample(endpoint: Endpoint)
    requires endpoint.additionalHeaders == Some(map["Accept" := "text/plain", "X-Custom" := "v"])
    ensures endpoint.Headers()
      == map["Content-Type" := "application/json", "Accept" := "text/plain", "X-Custom" := "v"]
  {
  }
}
