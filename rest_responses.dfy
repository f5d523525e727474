/** Classifying a response against the status the caller expects (`parse_rest_response`,
    `handle_error_response`). Reading and decoding an error body is a library call; its
    outcome is an input. */
module RestResponses {
  import opened RestTypes

  /** What reading and decoding the body of an error response gave: the `code` field of
      the error object, a failure to read the body stream, or a body that is not such an
      object. */
  datatype ErrorBody = ErrorCode(code: string) | BodyReadFailed | MalformedBody

  /** `deserialize_body::<ErrorResponse>` as seen by its caller. */
  function DecodedErrorCode(body: ErrorBody): (r: Result<string>)
    ensures r.Ok? <==> body.ErrorCode?
    ensures r.Ok? ==> r.value == body.code
    ensures body.BodyReadFailed? ==> r == Err(HyperError)
    ensures body.MalformedBody? ==> r == Err(DeserializeError)
  {
    match body
    case ErrorCode(code) => Ok(code)
    case BodyReadFailed => Err(HyperError)
    case MalformedBody => Err(DeserializeError)
  }

  /** `handle_error_response`: never succeeds. 404 and 405 get a fixed message without the
      body being read; any other status carries the code from the body, or the error from
      reading it. */
  function HandleErrorResponse<T>(response: Response, body: ErrorBody): (r: Result<T>)
    ensures r.Err?
    ensures response.status == NOT_FOUND ==> r.error == ApiError(NOT_FOUND, "Not found")
    ensures response.status == METHOD_NOT_ALLOWED ==>
              r.error == ApiError(METHOD_NOT_ALLOWED, "Method not allowed")
    ensures response.status != NOT_FOUND && response.status != METHOD_NOT_ALLOWED ==>
              && (body.ErrorCode? ==> r.error == ApiError(response.status, body.code))
              && (body.BodyReadFailed? ==> r.error == HyperError)
              && (body.MalformedBody? ==> r.error == DeserializeError)
    ensures r.error.ApiError? ==> r.error.status == response.status
  {
    if response.status == NOT_FOUND then
      Err(ApiError(response.status, "Not found"))
    else if response.status == METHOD_NOT_ALLOWED then
      Err(ApiError(response.status, "Method not allowed"))
    else
      match DecodedErrorCode(body)
      case Err(e) => Err(e)
      case Ok(code) => Err(ApiError(response.status, code))
  }

  /** `parse_rest_response`: the response itself exactly when its status is the expected
      one, otherwise the error `handle_error_response` gives. */
  function ParseRestResponse(response: Response, expected: StatusCode, body: ErrorBody)
    : (r: Result<Response>)
    ensures r.Ok? <==> response.status == expected
    ensures r.Ok? ==> r.value == response
    ensures r.Err? ==> r == HandleErrorResponse(response, body)
  {
    if response.status != expected then HandleErrorResponse(response, body) else Ok(response)
  }

  /** An error from `parse_rest_response` never reports the expected status, and for 404
      and 405 it does not depend on the body. */
  lemma ParseRestResponseErrors(response: Response, expected: StatusCode, body: ErrorBody,
                                other: ErrorBody)
    ensures var r := ParseRestResponse(response, expected, body);
            r.Err? && r.error.ApiError? ==> r.error.status != expected
    ensures response.status == NOT_FOUND || response.status == METHOD_NOT_ALLOWED ==>
              ParseRestResponse(response, expected, body) == ParseRestResponse(response, expected, other)
  {
  }
}
