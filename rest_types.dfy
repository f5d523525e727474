/** Values shared by the REST client of mullvad-rpc: fixed-width integers, durations,
    status codes, the error taxonomy, results, URIs, socket addresses and HTTP messages.
    The hyper/http library types appear here only through the parts the client inspects. */
module RestTypes {

  const U64_MODULUS: int := 0x1_0000_0000_0000_0000

  /** Rust's `u64`. */
  type u64 = x: int | 0 <= x < U64_MODULUS

  type byte = b: int | 0 <= b < 256

  /** A TCP port (`u16`). */
  type Port = p: int | 0 <= p < 0x1_0000

  /** `u64::wrapping_add`: the sum taken modulo 2^64. */
  function WrappingAdd(a: u64, b: u64): (r: u64)
    ensures a + b < U64_MODULUS ==> r == a + b
    ensures a + b >= U64_MODULUS ==> r == a + b - U64_MODULUS
  {
    (a + b) % U64_MODULUS
  }

  /** `std::time::Duration`, counted in nanoseconds. */
  type Duration = nat

  const NANOS_PER_SECOND: nat := 1_000_000_000

  function Seconds(n: nat): Duration
  {
    n * NANOS_PER_SECOND
  }

  /** The timeout every request gets unless a factory sets its own. */
  const DEFAULT_TIMEOUT: Duration := 10 * NANOS_PER_SECOND

  /** `hyper::StatusCode`: a three-digit code. */
  type StatusCode = s: int | 100 <= s <= 999 witness 200

  const NOT_FOUND: StatusCode := 404
  const METHOD_NOT_ALLOWED: StatusCode := 405

  /** All the ways a REST request can fail. The library error each variant wraps is
      not modelled; only the kind of failure is. */
  datatype Error =
    | Aborted
    | HyperError
    | InvalidHeaderError
    | HttpError
    | TimeoutError
    | DeserializeError
    | SendError
    | ReceiveError
    | ApiError(status: StatusCode, code: string)
    | UriError

  datatype Option<T> = None | Some(value: T)

  datatype Result<T> = Ok(value: T) | Err(error: Error)

  /** `flatten_result`: collapses a result whose success value is itself a result. */
  function Flatten<T>(result: Result<Result<T>>): (r: Result<T>)
    ensures r.Ok? <==> result.Ok? && result.value.Ok?
    ensures r.Ok? ==> r.value == result.value.value
    ensures result.Err? ==> r.Err? && r.error == result.error
    ensures result.Ok? && result.value.Err? ==> r.Err? && r.error == result.value.error
  {
    match result
    case Ok(value) => value
    case Err(err) => Err(err)
  }

  /** A parsed URI: the parts of `hyper::Uri` the client reads. */
  datatype Uri = Uri(host: Option<string>, port: Option<Port>, pathAndQuery: string)

  /** `Uri::from_str`, a library parser: None when the text is not a valid URI. */
  type UriParser = string -> Option<Uri>

  datatype IpAddr = V4(octets: seq<byte>) | V6(octets: seq<byte>)

  /** `str::parse::<IpAddr>`, a library parser: None when the text is not an IP literal. */
  type IpParser = string -> Option<IpAddr>

  /** `HeaderValue::from_str`, a library validator: true when the text may be a header value. */
  type HeaderCheck = string -> bool

  datatype SocketAddr = SocketAddr(ip: IpAddr, port: Port)

  datatype Method = GET | POST | PUT | DELETE | HEAD | OPTIONS | PATCH | CONNECT | TRACE
                  | Extension(name: string)

  /** The header names the client sets. */
  datatype HeaderName = ACCEPT | HOST | AUTHORIZATION | CONTENT_LENGTH | CONTENT_TYPE

  /** `hyper::Request<hyper::Body>`. */
  datatype HttpRequest = HttpRequest(verb: Method, uri: Uri, headers: map<HeaderName, string>,
                                     body: seq<byte>)

  /** `hyper::Response<hyper::Body>`. */
  datatype Response = Response(status: StatusCode, body: seq<byte>)
}
