/** Building REST requests: `RestRequest` (a hyper request plus a timeout and an optional
    authorization header) and `RequestFactory`, which turns an API path into a request
    against the address the address provider currently hands out.

    Both are owned Rust values; a `&mut self` method on them is modelled as a function
    that returns the updated value. */
module RestRequests {
  import opened RestTypes

  const JSON_CONTENT_TYPE: string := "application/json"

  datatype RestRequest = RestRequest(request: HttpRequest, timeout: Duration, auth: Option<string>)

  /** `RestRequest::get`: a GET request for an absolute URI, with the default timeout. The
      `Host` header is copied from the URI when it has a host. */
  function NewGetRequest(uri: string, parseUri: UriParser, isHeaderValue: HeaderCheck)
    : (r: Result<RestRequest>)
    ensures parseUri(uri).None? ==> r == Err(UriError)
    ensures parseUri(uri).Some? ==>
              var u := parseUri(uri).value;
              (r.Ok? <==> u.host.None? || isHeaderValue(u.host.value))
              && (r.Err? ==> r.error == InvalidHeaderError)
    ensures r.Ok? ==>
              var req := r.value.request;
              && r.value.timeout == DEFAULT_TIMEOUT
              && r.value.auth.None?
              && req.verb == GET
              && parseUri(uri) == Some(req.uri)
              && req.body == []
              && req.headers.Keys <= {ACCEPT, HOST}
              && ACCEPT in req.headers && req.headers[ACCEPT] == JSON_CONTENT_TYPE
              && (HOST in req.headers <==> req.uri.host.Some?)
              && (HOST in req.headers ==> req.headers[HOST] == req.uri.host.value)
  {
    match parseUri(uri)
    case None => Err(UriError)
    case Some(u) =>
      if u.host.Some? && !isHeaderValue(u.host.value) then
        Err(InvalidHeaderError)
      else
        var hostHeader := if u.host.Some? then map[HOST := u.host.value] else map[];
        var headers := map[ACCEPT := JSON_CONTENT_TYPE] + hostHeader;
        Ok(RestRequest(HttpRequest(GET, u, headers, []), DEFAULT_TIMEOUT, None))
  }

  /** The authorization header value for a token: `Token <auth>`. */
  function TokenHeader(auth: string): string
  {
    "Token " + auth
  }

  /** Reads the token back out of an authorization header value. */
  function TokenOf(header: string): Option<string>
  {
    if |header| >= 6 && header[..6] == "Token " then Some(header[6..]) else None
  }

  lemma TokenHeaderRoundTrip(auth: string)
    ensures TokenOf(TokenHeader(auth)) == Some(auth)
  {
    assert TokenHeader(auth)[..6] == "Token ";
    assert TokenHeader(auth)[6..] == auth;
  }

  lemma TokenOfInverse(header: string)
    ensures TokenOf(header).Some? ==> TokenHeader(TokenOf(header).value) == header
  {
    if TokenOf(header).Some? {
      assert header == header[..6] + header[6..];
    }
  }

  /** `RestRequest::set_auth`. The first component is the request afterwards, the second
      the returned result. `None` clears the header; `Some(a)` sets it to `Token a`, unless
      that is not a valid header value, in which case the request is left as it was. */
  function SetAuth(req: RestRequest, auth: Option<string>, isHeaderValue: HeaderCheck)
    : (out: (RestRequest, Result<()>))
    ensures out.0.request == req.request && out.0.timeout == req.timeout
    ensures auth.None? ==> out.1.Ok? && out.0.auth.None?
    ensures auth.Some? ==> (out.1.Ok? <==> isHeaderValue(TokenHeader(auth.value)))
    ensures auth.Some? && out.1.Ok? ==> out.0.auth == Some(TokenHeader(auth.value))
    ensures out.1.Err? ==> out.1.error == InvalidHeaderError && out.0 == req
  {
    match auth
    case None => (req.(auth := None), Ok(()))
    case Some(a) =>
      if isHeaderValue(TokenHeader(a)) then (req.(auth := Some(TokenHeader(a))), Ok(()))
      else (req, Err(InvalidHeaderError))
  }

  /** `RestRequest::set_timeout`. */
  function SetTimeout(req: RestRequest, timeout: Duration): (r: RestRequest)
    ensures r.timeout == timeout && r.request == req.request && r.auth == req.auth
  {
    req.(timeout := timeout)
  }

  /** `RestRequest::into_request`: the hyper request, with the authorization header added
      when one was set. No other header, nor the method, URI or body, changes. */
  function IntoRequest(req: RestRequest): (r: HttpRequest)
    ensures r == req.request.(headers := r.headers)
    ensures r.headers - {AUTHORIZATION} == req.request.headers - {AUTHORIZATION}
    ensures req.auth.Some? ==> AUTHORIZATION in r.headers && r.headers[AUTHORIZATION] == req.auth.value
    ensures req.auth.None? ==> r.headers == req.request.headers
  {
    match req.auth
    case Some(a) => req.request.(headers := req.request.headers[AUTHORIZATION := a])
    case None => req.request
  }

  /** `From<Request> for RestRequest`: default timeout, no authorization. */
  function FromRequest(request: HttpRequest): (r: RestRequest)
    ensures r.request == request && r.timeout == DEFAULT_TIMEOUT && r.auth.None?
  {
    RestRequest(request, DEFAULT_TIMEOUT, None)
  }

  /** `RequestFactory`. The address provider is not a field here: each operation takes the
      address it returned for this call. */
  datatype RequestFactory = RequestFactory(hostname: string, pathPrefix: Option<string>,
                                           timeout: Duration)

  /** `RequestFactory::new`. */
  function NewFactory(hostname: string, pathPrefix: Option<string>): (f: RequestFactory)
    ensures f.hostname == hostname && f.pathPrefix == pathPrefix && f.timeout == DEFAULT_TIMEOUT
  {
    RequestFactory(hostname, pathPrefix, DEFAULT_TIMEOUT)
  }

  function PrefixOrEmpty(prefix: Option<string>): string
  {
    match prefix
    case Some(p) => p
    case None => ""
  }

  /** The text `get_uri` formats: `https://<host>/<prefix><path>`. */
  function UriText(host: string, prefix: Option<string>, path: string): (s: string)
    ensures |s| == 9 + |host| + |PrefixOrEmpty(prefix)| + |path|
    ensures s[..8] == "https://" && s[8..8 + |host|] == host && s[8 + |host|] == '/'
    ensures s[9 + |host|..] == PrefixOrEmpty(prefix) + path
  {
    "https://" + host + "/" + PrefixOrEmpty(prefix) + path
  }

  /** The characters of `s` before its first `/` (all of `s` when it has none). */
  function UntilSlash(s: string): (r: string)
    ensures |r| <= |s| && r == s[..|r|]
    ensures '/' !in r
    ensures |r| < |s| ==> s[|r|] == '/'
  {
    if s == [] || s[0] == '/' then [] else [s[0]] + UntilSlash(s[1..])
  }

  /** The authority of an `https://` URI text: what lies between the scheme and the first
      `/` after it. */
  function HttpsAuthority(s: string): Option<string>
  {
    if |s| >= 8 && s[..8] == "https://" then Some(UntilSlash(s[8..])) else None
  }

  lemma {:induction false} UntilSlashStopsAtSlash(host: string, rest: string)
    requires '/' !in host
    ensures UntilSlash(host + "/" + rest) == host
  {
    if host != [] {
      assert (host + "/" + rest)[1..] == host[1..] + "/" + rest;
      UntilSlashStopsAtSlash(host[1..], rest);
    }
  }

  /** The host handed to `get_uri` is the authority of the URI text it builds, and what
      follows it is `/`, the prefix and the path, as long as the host has no `/` of its own. */
  lemma UriTextAuthority(host: string, prefix: Option<string>, path: string)
    requires '/' !in host
    ensures HttpsAuthority(UriText(host, prefix, path)) == Some(host)
  {
    var s := UriText(host, prefix, path);
    assert s[8..] == host + "/" + (PrefixOrEmpty(prefix) + path);
    UntilSlashStopsAtSlash(host, PrefixOrEmpty(prefix) + path);
  }

  /** `RequestFactory::get_uri`: the URI for `path` at the address `address`, or `UriError`
      when that text does not parse. */
  function GetUri(f: RequestFactory, address: string, path: string, parseUri: UriParser)
    : (r: Result<Uri>)
    ensures r.Ok? <==> parseUri(UriText(address, f.pathPrefix, path)).Some?
    ensures r.Ok? ==> parseUri(UriText(address, f.pathPrefix, path)) == Some(r.value)
    ensures r.Err? ==> r.error == UriError
  {
    match parseUri(UriText(address, f.pathPrefix, path))
    case Some(uri) => Ok(uri)
    case None => Err(UriError)
  }

  /** `RequestFactory::hyper_request`: method, URI, `Accept: application/json`, the
      factory's host name as `Host`, and an empty body. A host name that is not a valid
      header value makes the builder fail with `HttpError`. */
  function HyperRequest(f: RequestFactory, address: string, path: string, verb: Method,
                        parseUri: UriParser, isHeaderValue: HeaderCheck)
    : (r: Result<HttpRequest>)
    ensures var u := GetUri(f, address, path, parseUri);
            && (u.Err? ==> r == Err(UriError))
            && (u.Ok? && !isHeaderValue(f.hostname) ==> r == Err(HttpError))
            && (r.Ok? <==> u.Ok? && isHeaderValue(f.hostname))
            && (r.Ok? ==> r.value.uri == u.value)
    ensures r.Ok? ==>
              && r.value.verb == verb
              && r.value.headers == map[ACCEPT := JSON_CONTENT_TYPE, HOST := f.hostname]
              && r.value.body == []
  {
    match GetUri(f, address, path, parseUri)
    case Err(e) => Err(e)
    case Ok(uri) =>
      if !isHeaderValue(f.hostname) then Err(HttpError)
      else Ok(HttpRequest(verb, uri, map[ACCEPT := JSON_CONTENT_TYPE, HOST := f.hostname], []))
  }

  /** `RequestFactory::set_request_timeout`: the request gets the factory's timeout. */
  function SetRequestTimeout(f: RequestFactory, req: RestRequest): (r: RestRequest)
    ensures r.timeout == f.timeout && r.request == req.request && r.auth == req.auth
  {
    req.(timeout := f.timeout)
  }

  /** `RequestFactory::request`: a request with the given verb and the factory's timeout. */
  function FactoryRequest(f: RequestFactory, address: string, path: string, verb: Method,
                          parseUri: UriParser, isHeaderValue: HeaderCheck)
    : (r: Result<RestRequest>)
    ensures var h := HyperRequest(f, address, path, verb, parseUri, isHeaderValue);
            && (r.Ok? <==> h.Ok?)
            && (r.Err? ==> r.error == h.error)
            && (r.Ok? ==> r.value.request == h.value)
    ensures r.Err? ==> r.error.UriError? || r.error.HttpError?
    ensures r.Ok? ==> r.value.timeout == f.timeout && r.value.auth.None?
                      && r.value.request.verb == verb
  {
    match HyperRequest(f, address, path, verb, parseUri, isHeaderValue)
    case Err(e) => Err(e)
    case Ok(request) => Ok(SetRequestTimeout(f, FromRequest(request)))
  }

  /** `RequestFactory::get`: a GET request with the factory's timeout. */
  function FactoryGet(f: RequestFactory, address: string, path: string,
                      parseUri: UriParser, isHeaderValue: HeaderCheck)
    : (r: Result<RestRequest>)
    ensures r == FactoryRequest(f, address, path, GET, parseUri, isHeaderValue)
    ensures r.Ok? ==> r.value.timeout == f.timeout && r.value.request.verb == GET
  {
    match HyperRequest(f, address, path, GET, parseUri, isHeaderValue)
    case Err(e) => Err(e)
    case Ok(request) => Ok(SetRequestTimeout(f, FromRequest(request)))
  }

  /** `RequestFactory::post`: a POST request with the factory's timeout. */
  function FactoryPost(f: RequestFactory, address: string, path: string,
                       parseUri: UriParser, isHeaderValue: HeaderCheck)
    : (r: Result<RestRequest>)
    ensures r == FactoryRequest(f, address, path, POST, parseUri, isHeaderValue)
    ensures r.Ok? ==> r.value.timeout == f.timeout && r.value.request.verb == POST
  {
    match HyperRequest(f, address, path, POST, parseUri, isHeaderValue)
    case Err(e) => Err(e)
    case Ok(request) => Ok(SetRequestTimeout(f, FromRequest(request)))
  }

  /** `RequestFactory::delete`: a DELETE request. Unlike `get` and `post` it keeps the
      default timeout, whatever the factory's timeout is. */
  function FactoryDelete(f: RequestFactory, address: string, path: string,
                         parseUri: UriParser, isHeaderValue: HeaderCheck)
    : (r: Result<RestRequest>)
    ensures var h := HyperRequest(f, address, path, DELETE, parseUri, isHeaderValue);
            && (r.Ok? <==> h.Ok?)
            && (r.Err? ==> r.error == h.error)
            && (r.Ok? ==> r.value.request == h.value)
    ensures r.Ok? ==> r.value.timeout == DEFAULT_TIMEOUT && r.value.auth.None?
                      && r.value.request.verb == DELETE
  {
    match HyperRequest(f, address, path, DELETE, parseUri, isHeaderValue)
    case Err(e) => Err(e)
    case Ok(request) => Ok(FromRequest(request))
  }

  /** The ASCII digit for `d`. */
  function DigitChar(d: nat): (c: char)
    requires d < 10
    ensures '0' <= c <= '9' && c as int - '0' as int == d
  {
    ('0' as int + d) as char
  }

  predicate AllDigits(s: string)
  {
    forall i :: 0 <= i < |s| ==> '0' <= s[i] <= '9'
  }

  /** `u64::to_string`: the decimal digits of `n`, without leading zeros. */
  function DecimalString(n: nat): (s: string)
    ensures |s| > 0 && AllDigits(s)
    ensures s[0] == '0' ==> n == 0
  {
    if n < 10 then [DigitChar(n)] else DecimalString(n / 10) + [DigitChar(n % 10)]
  }

  /** The number a string of decimal digits denotes. */
  function DecimalValue(s: string): nat
    requires AllDigits(s)
  {
    if s == [] then 0 else DecimalValue(s[..|s| - 1]) * 10 + (s[|s| - 1] as int - '0' as int)
  }

  /** The `Content-Length` value `post_json` writes reads back as the body's length. */
  lemma {:induction false} DecimalRoundTrip(n: nat)
    ensures DecimalValue(DecimalString(n)) == n
  {
    var s := DecimalString(n);
    if n >= 10 {
      DecimalRoundTrip(n / 10);
      assert s[..|s| - 1] == DecimalString(n / 10);
    }
  }

  /** `RequestFactory::post_json`. `json` is what the serializer produced for the body
      (`None` when it failed, which the source reports as `DeserializeError`). The request
      carries the body, its length in bytes as `Content-Length`, a JSON `Content-Type`, and
      the default timeout, not the factory's. */
  function FactoryPostJson(f: RequestFactory, address: string, path: string,
                           json: Option<seq<byte>>, parseUri: UriParser,
                           isHeaderValue: HeaderCheck)
    : (r: Result<RestRequest>)
    ensures var h := HyperRequest(f, address, path, POST, parseUri, isHeaderValue);
            && (h.Err? ==> r == Err(h.error))
            && (h.Ok? && json.None? ==> r == Err(DeserializeError))
            && (h.Ok? && json.Some? && !isHeaderValue(DecimalString(|json.value|)) ==>
                  r == Err(InvalidHeaderError))
            && (r.Ok? <==> h.Ok? && json.Some? && isHeaderValue(DecimalString(|json.value|)))
            && (r.Ok? ==> r.value.request.verb == h.value.verb
                          && r.value.request.uri == h.value.uri)
    ensures r.Ok? ==>
              var req := r.value.request;
              && r.value.timeout == DEFAULT_TIMEOUT && r.value.auth.None?
              && req.verb == POST
              && json.Some? && req.body == json.value
              && req.headers == map[ACCEPT := JSON_CONTENT_TYPE, HOST := f.hostname,
                                    CONTENT_LENGTH := DecimalString(|json.value|),
                                    CONTENT_TYPE := JSON_CONTENT_TYPE]
  {
    match HyperRequest(f, address, path, POST, parseUri, isHeaderValue)
    case Err(e) => Err(e)
    case Ok(request) =>
      match json
      case None => Err(DeserializeError)
      case Some(body) =>
        var length := DecimalString(|body|);
        if !isHeaderValue(length) then Err(InvalidHeaderError)
        else
          var headers := request.headers[CONTENT_LENGTH := length][CONTENT_TYPE := JSON_CONTENT_TYPE];
          Ok(FromRequest(request.(body := body, headers := headers)))
  }

  /** `Content-Length` of a request `post_json` built is the length of its body. */
  lemma PostJsonContentLength(f: RequestFactory, address: string, path: string,
                              json: Option<seq<byte>>, parseUri: UriParser,
                              isHeaderValue: HeaderCheck)
    requires FactoryPostJson(f, address, path, json, parseUri, isHeaderValue).Ok?
    ensures var req := FactoryPostJson(f, address, path, json, parseUri, isHeaderValue).value.request;
            CONTENT_LENGTH in req.headers && AllDigits(req.headers[CONTENT_LENGTH])
            && DecimalValue(req.headers[CONTENT_LENGTH]) == |req.body|
  {
    DecimalRoundTrip(|json.value|);
  }
}
