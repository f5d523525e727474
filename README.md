# mullvad-rpc REST client core, modelled in Dafny

This project models the REST layer of the Mullvad VPN daemon's RPC crate (`mullvad-rpc/src/rest.rs`):

- how requests to the Mullvad API are built: `RestRequest`, `RequestFactory`, URIs, headers, timeouts and the authorization token;
- how responses are classified against the expected status;
- the request service that hands out request ids and keeps an abort handle for every request in flight, so that a reset cancels them all;
- which failures are reported to the address cache;
- when the background task re-fetches the list of API addresses.

Modules:

- `RestTypes` (`rest_types.dfy`): the error kinds, results, `flatten_result`, wrapping `u64` arithmetic, status codes, and the parts of URIs, requests and responses the client reads.
- `RestRequests` (`rest_requests.dfy`): `RestRequest::{get, set_auth, set_timeout, into_request}`, `From<Request>`, and `RequestFactory::{new, request, get, post, post_json, delete, hyper_request, get_uri, set_request_timeout}`. These are owned Rust values, so each `&mut self` method is a function that returns the updated value.
- `RestResponses` (`rest_responses.dfy`): `parse_rest_response` and `handle_error_response`.
- `RestCalls` (`rest_calls.dfy`): `get_request`, `send_request` and `post_request_with_json`, which chain the steps above.
- `RequestServices` (`request_service.dfy`): `get_request_socket_addr`, the failure-reporting rule, and the class `RequestService`. Its fields are `nextId: u64` and `inFlight: map<u64, AbortHandle>`. It has ghost bookkeeping: `issued` counts the ids handed out since the counter was last zeroed, and `owner` records which request holds each id. Its methods are the arms of `process_command`, plus `id` and `reset`.
- `ApiAddressFetcher` (`address_fetcher.dfy`): the next-check rule of `spawn_api_address_fetcher`, as pure functions.

Some library routines are parameters of the functions that use them:

- `Uri::from_str` is a `UriParser`.
- Parsing an IP literal is an `IpParser`.
- `HeaderValue::from_str` / `TryFrom<String>` is a `HeaderCheck`.

What the serializer produced, what reading an error body gave, and how an executed request ended (`Outcome`) are inputs. Durations and instants are natural numbers of nanoseconds.

## Model

| member | source | states |
|---|---|---|
| `RestTypes.WrappingAdd` | mullvad-rpc/src/rest.rs:184 | `wrapping_add` is the plain sum below 2^64 and the sum minus 2^64 at or above it |
| `RestTypes.Flatten` | mullvad-rpc/src/rest.rs:610-617 | succeeds iff both layers succeed, with the inner value; otherwise it keeps the outer error, or the inner one when only the inner layer failed |
| `RestRequests.NewGetRequest` | mullvad-rpc/src/rest.rs:262-283 | `UriError` iff the text does not parse; `InvalidHeaderError` iff the URI has a host that is not a valid header value; otherwise a GET with the default timeout, no auth, an empty body, `Accept: application/json` and `Host` exactly when the URI has a host |
| `RestRequests.SetAuth` | mullvad-rpc/src/rest.rs:286-297 | `None` clears the auth and succeeds; `Some(a)` succeeds iff `Token a` is a valid header value and then sets the auth to it; on failure the error is `InvalidHeaderError` and the request is unchanged; request and timeout never change |
| `RestRequests.TokenHeaderRoundTrip` | mullvad-rpc/src/rest.rs:285-290 | the token can be read back from the `Token <auth>` header value |
| `RestRequests.TokenOfInverse` | mullvad-rpc/src/rest.rs:285-290 | any header value a token is read from is exactly `Token ` followed by that token |
| `RestRequests.SetTimeout` | mullvad-rpc/src/rest.rs:300-302 | sets the timeout and nothing else |
| `RestRequests.IntoRequest` | mullvad-rpc/src/rest.rs:310-318 | only the headers can change, and only `Authorization`: it is set to the auth when there is one; without auth the request is unchanged |
| `RestRequests.FromRequest` | mullvad-rpc/src/rest.rs:326-334 | a request converted from a hyper request has the default timeout (10 s) and no auth |
| `RestRequests.NewFactory` | mullvad-rpc/src/rest.rs:351-362 | a new factory has the default timeout |
| `RestRequests.UriText` | mullvad-rpc/src/rest.rs:420-421 | the text is `https://`, the host, `/`, then the prefix (empty when absent) and the path, with the lengths adding up |
| `RestRequests.UntilSlashStopsAtSlash` | mullvad-rpc/src/rest.rs:421 | cutting at the first `/` recovers a slash-free host from `host/rest` |
| `RestRequests.UriTextAuthority` | mullvad-rpc/src/rest.rs:418-423 | the authority of the formatted URI text is exactly the address the provider gave, when it contains no `/` |
| `RestRequests.GetUri` | mullvad-rpc/src/rest.rs:418-423 | succeeds iff the formatted text parses, with that URI; fails only with `UriError` |
| `RestRequests.HyperRequest` | mullvad-rpc/src/rest.rs:407-416 | `UriError` when the URI fails; `HttpError` iff the URI is fine but the factory host name is not a valid header value; otherwise the given method, that URI, exactly the `Accept` and `Host` headers, and an empty body |
| `RestRequests.SetRequestTimeout` | mullvad-rpc/src/rest.rs:425-428 | the request gets the factory's timeout; request and auth are unchanged |
| `RestRequests.FactoryRequest` | mullvad-rpc/src/rest.rs:364-368 | succeeds iff the hyper request can be built, with that request, the factory's timeout and no auth; errors are only `UriError` or `HttpError` |
| `RestRequests.FactoryGet` | mullvad-rpc/src/rest.rs:370-374 | same as `request` with GET; carries the factory's timeout |
| `RestRequests.FactoryPost` | mullvad-rpc/src/rest.rs:376-380 | same as `request` with POST; carries the factory's timeout |
| `RestRequests.FactoryDelete` | mullvad-rpc/src/rest.rs:402-405 | succeeds iff the hyper request can be built; a DELETE with the default timeout whatever the factory's timeout |
| `RestRequests.FactoryPostJson` | mullvad-rpc/src/rest.rs:382-400 | errors in order: the hyper request's error, `DeserializeError` when serialization failed, `InvalidHeaderError` when the length is not a valid header value; otherwise a POST with the JSON body, `Content-Length` = decimal byte length, JSON `Content-Type`, and the default timeout |
| `RestRequests.DecimalString` | mullvad-rpc/src/rest.rs:386-392 | `u64::to_string` gives a non-empty string of digits without a leading zero |
| `RestRequests.DecimalRoundTrip` | mullvad-rpc/src/rest.rs:386-392 | the decimal text of a length reads back as that length |
| `RestRequests.PostJsonContentLength` | mullvad-rpc/src/rest.rs:382-400 | the `Content-Length` of a request built by `post_json` denotes the length of its body |
| `RestResponses.DecodedErrorCode` | mullvad-rpc/src/rest.rs:507-521 | decoding the error body yields the code, `HyperError` when reading fails, or `DeserializeError` when the body is malformed |
| `RestResponses.HandleErrorResponse` | mullvad-rpc/src/rest.rs:536-547 | always an error: 404 gives `ApiError(404, "Not found")` and 405 gives `ApiError(405, "Method not allowed")`; any other status gives `ApiError(status, code)` or the body's read or decode error; an `ApiError` always carries the response's status |
| `RestResponses.ParseRestResponse` | mullvad-rpc/src/rest.rs:523-533 | returns the response unchanged iff its status equals the expected one; otherwise the error of `handle_error_response` |
| `RestResponses.ParseRestResponseErrors` | mullvad-rpc/src/rest.rs:523-547 | an `ApiError` from it never carries the expected status; for 404 and 405 the result does not depend on the body |
| `RestCalls.Authorized` | mullvad-rpc/src/rest.rs:464-465 | the built request with `Token <auth>` set (or no auth), the same hyper request and timeout; a factory error propagates unchanged and a rejected token gives `InvalidHeaderError` |
| `RestCalls.Execute` | mullvad-rpc/src/rest.rs:466-467 | succeeds iff the request was prepared and the service returned a response with the expected status, and then returns that response; a preparation or service error is returned unchanged, and a wrong status gives `handle_error_response`'s error |
| `RestCalls.SendRequest` | mullvad-rpc/src/rest.rs:471-487 | succeeds iff the request is built, authorized, and answered with the expected status, returning the service's response to a request with the given method and the factory's timeout; otherwise the factory error, `InvalidHeaderError` for a rejected token, the service's error, or `handle_error_response`'s error for a wrong status |
| `RestCalls.GetRequest` | mullvad-rpc/src/rest.rs:455-469 | behaves as `send_request` with GET |
| `RestCalls.PostRequestWithJson` | mullvad-rpc/src/rest.rs:489-504 | succeeds iff the request is built, authorized, and answered with the expected status, returning the service's response to a request carrying the JSON body with the default timeout; otherwise the `post_json` error, `InvalidHeaderError` for a rejected token, the service's error, or `handle_error_response`'s error for a wrong status |
| `RestCalls.AuthorizationOnTheWire` | mullvad-rpc/src/rest.rs:310-318 | after a successful `set_auth(Some(a))`, the hyper request carries an `Authorization` header whose token is `a`, and its other headers are the factory's |
| `RequestServices.RequestSocketAddr` | mullvad-rpc/src/rest.rs:195-205 | `None` iff the URI has no host or the host is not an IP literal; otherwise that IP, with the URI's port or 443 |
| `RequestServices.CompletedResponse` | mullvad-rpc/src/rest.rs:127-137 | after flattening twice: `Ok` iff a response arrived, `TimeoutError`, `Aborted` or `HyperError` for the other outcomes |
| `RequestServices.FailureToRegister` | mullvad-rpc/src/rest.rs:138-147 | a failure is reported iff a socket address was derived, the response is an error, and that error is `HyperError` or `TimeoutError`; the report is that address and that error |
| `RequestServices.ReportedOutcomes` | mullvad-rpc/src/rest.rs:127-147 | reported exactly for client failures and timeouts to an IP-literal host; aborted requests and responses of any status are never reported |
| `RequestServices.AbortAll` | mullvad-rpc/src/rest.rs:174-177 | every handle of the table is aborted |
| `RequestServices.RequestService.constructor` | mullvad-rpc/src/rest.rs:89-103 | the table is empty and the counter is 0 |
| `RequestServices.RequestService.Id` | mullvad-rpc/src/rest.rs:182-186 | returns the counter's old value and advances it by one, wrapping at 2^64 |
| `RequestServices.NextIdWraps` | mullvad-rpc/src/rest.rs:184 | advancing the wrapped counter keeps it equal to the number of ids handed out, modulo 2^64 |
| `RequestServices.RequestService.StartRequest` | mullvad-rpc/src/rest.rs:119-161 | takes exactly one id, stores a fresh unaborted handle under it and changes no other entry; the task has the request's timeout, the hyper request and its socket address; below 2^64 ids since the last zeroing the id was unused, so the table grows by one |
| `RequestServices.RequestService.FinishRequest` | mullvad-rpc/src/rest.rs:163-165 | removes the entry for that id and leaves every other entry unchanged |
| `RequestServices.RequestService.Reset` | mullvad-rpc/src/rest.rs:173-180 | every handle in the table before is aborted, the table is empty and the counter is 0 |
| `RequestServices.RequestService.ResetRetainingIds` | mullvad-rpc/src/rest.rs:173-180 | aborts and empties like `reset` but keeps the counter and id ownership (the corrected reset of the finding below) |
| `RequestServices.RequestService.ProcessCommand` | mullvad-rpc/src/rest.rs:117-171 | per command: `NewRequest` as `StartRequest` (one id taken; below 2^64 ids since the last zeroing it was unused and the table grows by one), `RequestFinished` removes only its key, `Reset` as `reset`; only `Reset` touches any handle |
| `RequestServices.RequestService.RunTask` | mullvad-rpc/src/rest.rs:131-156 | the caller gets the flattened response; the address cache gets exactly the report `FailureToRegister` chooses; the command sent back is `RequestFinished(id)` |
| `RequestServices.StaleFinishEscapesReset` | mullvad-rpc/src/rest.rs:155-180 | new request, reset, new request, then the first request's late `RequestFinished`, then reset: the table is empty, but the second request's handle was never aborted |
| `RequestServices.StaleFinishAfterRetainingReset` | mullvad-rpc/src/rest.rs:155-180 | the same interleaving with the corrected reset leaves the second request aborted |
| `ApiAddressFetcher.FirstCheck` | mullvad-rpc/src/rest.rs:571-573 | the first check is due 15 minutes after start |
| `ApiAddressFetcher.Rescheduled` | mullvad-rpc/src/rest.rs:575-576 | after a success the next check is 24 h after the fetch ends, after an error 15 min; never sooner than 15 min |
| `ApiAddressFetcher.Tick` | mullvad-rpc/src/rest.rs:580-596 | a tick that is not strictly past the due time changes nothing; otherwise the due time is rescheduled from the fetch |
| `ApiAddressFetcher.NoEarlyFetch` | mullvad-rpc/src/rest.rs:571-582 | no fetch happens in the first 15 minutes |
| `ApiAddressFetcher.FetchesAreSpaced` | mullvad-rpc/src/rest.rs:580-596 | consecutive fetches start more than 15 minutes apart, and more than 24 hours apart after a successful one |

## Left out

- The hyper `Client`, the `mpsc`/`oneshot` channels, spawning on the tokio runtime, `tokio::time::timeout` and the `abortable` future are async I/O. They are not modelled. How an executed request ends is the input `Outcome` to `RunTask`, and it does not depend on whether the handle was aborted. `reset` replacing the hyper client (and its connection pool) is not modelled.
- `RequestService::into_future`, the loop that feeds commands to `process_command`, is not modelled: the callers of `ProcessCommand` play that role.
- `RequestService::handle` and `RequestServiceHandle::{reset, request, spawn}` are channel plumbing. The result of `request`, including `SendError` and `ReceiveError`, is the `Exchange` input of `RestCalls`.
- `RequestServices.AbortAll` aborts in no particular order. The source walks the `BTreeMap` in ascending key order. The outcome is the same.
- `Uri::from_str`, IP-literal parsing and header-value validation are library code. They are opaque parameters, so the model does not fix which texts they accept.
- `serde_json` serialization and deserialization are not modelled. `deserialize_body`'s streaming of the body and its use of `Content-Length` as a capacity hint are not modelled either. Their outcomes are inputs.
- The `AddressProvider` trait and its `IpAddr` implementation are not modelled: each factory operation takes the address string it returned. `AddressCache` is reduced to a ghost log of `register_failure` calls.
- `RestRequests.NewGetRequest`: never yields `HttpError`. The builder's inputs there are already-validated typed values, so `body()` cannot fail.
- `RestRequest::{timeout, uri}` are plain field reads and are not modelled. The same goes for `MullvadRestHandle::{new, service, factory}`.
- The fetcher's interval timer (one tick a minute) and the fetch itself are timer-driven and infinite. They are not modelled. Only the rule for when the next check is due is modelled.
- Failing to store newly fetched addresses is only logged. It counts as a successful fetch for scheduling.
- `talpid-core/src/tunnel/openvpn/windows.rs` is a thin wrapper over a Windows DLL (library loading, raw handles, function pointers). It is not part of this model.

## Findings

| source | as written | input that shows it | evidently intended | confidence | as-written member | corrected member |
|---|---|---|---|---|---|---|
| mullvad-rpc/src/rest.rs:179 | `reset` sets `next_id` back to 0. Aborted requests still send `RequestFinished(id)` when their future ends, so an id can be reused while its old holder can still report back | `NewRequest` (id 0), `Reset`, `NewRequest` (id 0 again), then the aborted first request's `RequestFinished(0)`, then `Reset`: the second request is still running and is never aborted | ids stay unique across resets, so a late `RequestFinished` removes only its own request and every reset aborts every request still in flight | medium (depends on channel interleaving; not executed) | `RequestServices.StaleFinishEscapesReset` | `RequestServices.RequestService.ResetRetainingIds` |

`ProcessCommand` follows the code as written and calls `Reset`. `ResetRetainingIds` keeps `issued` and `owner` unchanged. Until 2^64 ids have been handed out, `StartRequest` then never hands out an id that is already owned. So a task's late `RequestFinished` can only remove its own entry (`FinishRequest`'s last postcondition).
