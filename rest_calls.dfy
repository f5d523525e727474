/** The three request helpers callers use (`get_request`, `send_request`,
    `post_request_with_json`): build a request with the factory, set its authorization,
    have the request service execute it, and check the status of the response.

    Executing a request is outside the model: `exchange` gives what
    `RequestServiceHandle::request` returned for the request handed to it (a response, or
    the error the service, the channels or the connection produced). */
module RestCalls {
  import opened RestTypes
  import opened RestRequests
  import opened RestResponses

  type Exchange = RestRequest -> Result<Response>

  /** The request as handed to the service: the built request with its authorization set. */
  function Authorized(built: Result<RestRequest>, auth: Option<string>, isHeaderValue: HeaderCheck)
    : (r: Result<RestRequest>)
    ensures r.Ok? <==> built.Ok? && SetAuth(built.value, auth, isHeaderValue).1.Ok?
    ensures built.Err? ==> r == Err(built.error)
    ensures built.Ok? && SetAuth(built.value, auth, isHeaderValue).1.Err? ==>
              auth.Some? && r == Err(InvalidHeaderError)
    ensures r.Ok? ==> r.value.request == built.value.request && r.value.timeout == built.value.timeout
    ensures r.Ok? && auth.Some? ==> r.value.auth == Some(TokenHeader(auth.value))
    ensures r.Ok? && auth.None? ==> r.value.auth.None?
  {
    match built
    case Err(e) => Err(e)
    case Ok(req) =>
      var (updated, outcome) := SetAuth(req, auth, isHeaderValue);
      match outcome
      case Err(e) => Err(e)
      case Ok(_) => Ok(updated)
  }

  /** The common tail of the helpers: execute the prepared request and check its status. */
  function Execute(prepared: Result<RestRequest>, exchange: Exchange, expected: StatusCode,
                   errorBody: ErrorBody)
    : (r: Result<Response>)
    ensures r.Ok? <==> prepared.Ok? && exchange(prepared.value).Ok?
                       && exchange(prepared.value).value.status == expected
    ensures r.Ok? ==> exchange(prepared.value) == Ok(r.value) && r.value.status == expected
    ensures prepared.Err? ==> r == Err(prepared.error)
    ensures prepared.Ok? && exchange(prepared.value).Err? ==>
              r == Err(exchange(prepared.value).error)
    ensures prepared.Ok? && exchange(prepared.value).Ok?
            && exchange(prepared.value).value.status != expected ==>
              r == HandleErrorResponse(exchange(prepared.value).value, errorBody)
  {
    match prepared
    case Err(e) => Err(e)
    case Ok(req) =>
      match exchange(req)
      case Err(e) => Err(e)
      case Ok(response) => ParseRestResponse(response, expected, errorBody)
  }

  /** `send_request`. */
  function SendRequest(f: RequestFactory, address: string, path: string, verb: Method,
                       auth: Option<string>, expected: StatusCode, parseUri: UriParser,
                       isHeaderValue: HeaderCheck, exchange: Exchange, errorBody: ErrorBody)
    : (r: Result<Response>)
    ensures var built := FactoryRequest(f, address, path, verb, parseUri, isHeaderValue);
            var prepared := Authorized(built, auth, isHeaderValue);
            && (built.Err? ==> r == Err(built.error))
            && (built.Ok? && prepared.Err? ==> auth.Some? && r == Err(InvalidHeaderError))
            && (prepared.Ok? && exchange(prepared.value).Err? ==>
                  r == Err(exchange(prepared.value).error))
            && (prepared.Ok? && exchange(prepared.value).Ok?
                && exchange(prepared.value).value.status != expected ==>
                  r == HandleErrorResponse(exchange(prepared.value).value, errorBody))
            && (r.Ok? <==> prepared.Ok? && exchange(prepared.value).Ok?
                           && exchange(prepared.value).value.status == expected)
    ensures var prepared := Authorized(FactoryRequest(f, address, path, verb, parseUri, isHeaderValue),
                                       auth, isHeaderValue);
            r.Ok? ==> prepared.Ok? && exchange(prepared.value) == Ok(r.value)
                      && r.value.status == expected
                      && prepared.value.timeout == f.timeout
                      && prepared.value.request.verb == verb
  {
    Execute(Authorized(FactoryRequest(f, address, path, verb, parseUri, isHeaderValue), auth,
                       isHeaderValue),
            exchange, expected, errorBody)
  }

  /** `get_request`. */
  function GetRequest(f: RequestFactory, address: string, path: string, auth: Option<string>,
                      expected: StatusCode, parseUri: UriParser, isHeaderValue: HeaderCheck,
                      exchange: Exchange, errorBody: ErrorBody)
    : (r: Result<Response>)
    ensures r == SendRequest(f, address, path, GET, auth, expected, parseUri, isHeaderValue,
                             exchange, errorBody)
  {
    Execute(Authorized(FactoryGet(f, address, path, parseUri, isHeaderValue), auth, isHeaderValue),
            exchange, expected, errorBody)
  }

  /** `post_request_with_json`: unlike `send_request` with POST, the request keeps the
      default timeout. */
  function PostRequestWithJson(f: RequestFactory, address: string, path: string,
                               json: Option<seq<byte>>, auth: Option<string>,
                               expected: StatusCode, parseUri: UriParser,
                               isHeaderValue: HeaderCheck, exchange: Exchange,
                               errorBody: ErrorBody)
    : (r: Result<Response>)
    ensures var built := FactoryPostJson(f, address, path, json, parseUri, isHeaderValue);
            var prepared := Authorized(built, auth, isHeaderValue);
            && (built.Err? ==> r == Err(built.error))
            && (built.Ok? && prepared.Err? ==> auth.Some? && r == Err(InvalidHeaderError))
            && (prepared.Ok? && exchange(prepared.value).Err? ==>
                  r == Err(exchange(prepared.value).error))
            && (prepared.Ok? && exchange(prepared.value).Ok?
                && exchange(prepared.value).value.status != expected ==>
                  r == HandleErrorResponse(exchange(prepared.value).value, errorBody))
            && (r.Ok? <==> prepared.Ok? && exchange(prepared.value).Ok?
                           && exchange(prepared.value).value.status == expected)
    ensures var prepared := Authorized(FactoryPostJson(f, address, path, json, parseUri, isHeaderValue),
                                       auth, isHeaderValue);
            r.Ok? ==> prepared.Ok? && exchange(prepared.value) == Ok(r.value)
                      && r.value.status == expected
                      && prepared.value.timeout == DEFAULT_TIMEOUT
                      && json.Some? && prepared.value.request.body == json.value
  {
    Execute(Authorized(FactoryPostJson(f, address, path, json, parseUri, isHeaderValue), auth,
                       isHeaderValue),
            exchange, expected, errorBody)
  }

  /** What reaches the wire for a token: the hyper request the service builds from the
      prepared request carries `Authorization: Token <auth>` and otherwise the headers the
      factory set. */
  lemma AuthorizationOnTheWire(built: Result<RestRequest>, auth: string, isHeaderValue: HeaderCheck)
    requires Authorized(built, Some(auth), isHeaderValue).Ok?
    ensures var wire := IntoRequest(Authorized(built, Some(auth), isHeaderValue).value);
            && AUTHORIZATION in wire.headers
            && TokenOf(wire.headers[AUTHORIZATION]) == Some(auth)
            && wire.headers - {AUTHORIZATION} == built.value.request.headers - {AUTHORIZATION}
  {
    TokenHeaderRoundTrip(auth);
  }
}
