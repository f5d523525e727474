/** The request service of mullvad-rpc: it hands out request ids, keeps an abort handle for
    every request in flight so that a reset can cancel them all, and, when a request to a
    literal IP address fails at the connection level, reports that address to the address
    cache.

    The hyper client, the command channels and the spawned futures are not modelled: a
    `NewRequest` yields a `Task` describing the spawned future, and `RunTask` plays that
    future to its end given how the request turned out. */
module RequestServices {
  import opened RestTypes
  import opened RestRequests

  /** The port assumed when a URI names none (HTTPS is assumed throughout). */
  const HTTPS_PORT: Port := 443

  /** `get_request_socket_addr`: the socket address of a request whose host is an IP
      literal, with the URI's port or 443. */
  function RequestSocketAddr(uri: Uri, parseIp: IpParser): (r: Option<SocketAddr>)
    ensures r.None? <==> uri.host.None? || parseIp(uri.host.value).None?
    ensures r.Some? ==> Some(r.value.ip) == parseIp(uri.host.value)
    ensures r.Some? && uri.port.Some? ==> r.value.port == uri.port.value
    ensures r.Some? && uri.port.None? ==> r.value.port == 443
  {
    var port := match uri.port case Some(p) => p case None => HTTPS_PORT;
    match uri.host
    case None => None
    case Some(host) =>
      match parseIp(host)
      case None => None
      case Some(ip) => Some(SocketAddr(ip, port))
  }

  /** How an executed request turned out: a response, a failure of the HTTP client, an
      abort through its abort handle, or its timeout elapsing first. */
  datatype Outcome = Responded(response: Response) | ClientFailed | AbortedByHandle | TimedOut

  /** The nested result the spawned future sees: the timeout layer outside, the abort layer
      in the middle, the client's own result inside. */
  function NestedResult(outcome: Outcome): Result<Result<Result<Response>>>
  {
    match outcome
    case TimedOut => Err(TimeoutError)
    case AbortedByHandle => Ok(Err(Aborted))
    case ClientFailed => Ok(Ok(Err(HyperError)))
    case Responded(response) => Ok(Ok(Ok(response)))
  }

  /** The response handed back to the caller: the two layers flattened away. */
  function CompletedResponse(outcome: Outcome): (r: Result<Response>)
    ensures r.Ok? <==> outcome.Responded?
    ensures r.Ok? ==> r.value == outcome.response
    ensures outcome.TimedOut? ==> r == Err(TimeoutError)
    ensures outcome.AbortedByHandle? ==> r == Err(Aborted)
    ensures outcome.ClientFailed? ==> r == Err(HyperError)
  {
    Flatten(Flatten(NestedResult(outcome)))
  }

  /** The failure to report to the address cache, if any: only a `HyperError` or a
      `TimeoutError` of a request whose host was an IP literal is reported. */
  function FailureToRegister(hostAddr: Option<SocketAddr>, response: Result<Response>)
    : (r: Option<(SocketAddr, Error)>)
    ensures r.Some? <==> hostAddr.Some? && response.Err?
                         && (response.error.HyperError? || response.error.TimeoutError?)
    ensures r.Some? ==> r.value == (hostAddr.value, response.error)
  {
    match hostAddr
    case None => None
    case Some(addr) =>
      match response
      case Ok(_) => None
      case Err(err) =>
        match err
        case HyperError => Some((addr, err))
        case TimeoutError => Some((addr, err))
        case _ => None
  }

  /** Which outcomes lead to a report: a client failure or a timeout, for an IP-literal
      host. A request cancelled by a reset, or one that got any response at all, is never
      reported. */
  lemma ReportedOutcomes(hostAddr: Option<SocketAddr>, outcome: Outcome)
    ensures FailureToRegister(hostAddr, CompletedResponse(outcome)).Some? <==>
              hostAddr.Some? && (outcome.ClientFailed? || outcome.TimedOut?)
  {
  }

  /** `AbortHandle`: cancels the future it belongs to. */
  class AbortHandle {
    var aborted: bool

    constructor ()
      ensures !aborted
    {
      aborted := false;
    }

    method Abort()
      modifies this
      ensures aborted
    {
      aborted := true;
    }
  }

  /** The address cache, seen only through the failures reported to it. */
  class AddressCache {
    ghost var failures: seq<(SocketAddr, Error)>

    constructor ()
      ensures failures == []
    {
      failures := [];
    }

    method RegisterFailure(addr: SocketAddr, err: Error)
      modifies this
      ensures failures == old(failures) + [(addr, err)]
    {
      failures := failures + [(addr, err)];
    }
  }

  datatype Command = NewRequest(request: RestRequest) | RequestFinished(id: u64) | Reset

  /** The future spawned for a new request: what it needs to run and report. */
  datatype Task = Task(id: u64, timeout: Duration, hostAddr: Option<SocketAddr>,
                       request: HttpRequest, handle: AbortHandle)

  /** Aborts every handle in `handles`, in no particular order. */
  method AbortAll(handles: map<u64, AbortHandle>)
    modifies handles.Values
    ensures forall k :: k in handles ==> handles[k].aborted
  {
    var remaining := handles.Keys;
    while remaining != {}
      invariant remaining <= handles.Keys
      invariant forall k :: k in handles && k !in remaining ==> handles[k].aborted
      decreases remaining
    {
      var k :| k in remaining;
      handles[k].Abort();
      remaining := remaining - {k};
    }
  }

  class RequestService {
    var nextId: u64
    var inFlight: map<u64, AbortHandle>
    const addressCache: AddressCache

    /** How many ids were handed out since the counter was last set to 0. */
    ghost var issued: nat
    /** For every id handed out since then, the abort handle of the request that got it
        most recently. */
    ghost var owner: map<u64, AbortHandle>

    ghost predicate Valid()
      reads this
    {
      && nextId == issued % U64_MODULUS
      && (forall k :: k in owner ==> k < issued)
      && (forall k :: k in inFlight ==> k in owner && inFlight[k] == owner[k])
    }

    /** `RequestService::new`: no request in flight and the first id is 0. */
    constructor (addressCache: AddressCache)
      ensures Valid()
      ensures nextId == 0 && inFlight == map[] && this.addressCache == addressCache
      ensures issued == 0 && owner == map[]
    {
      nextId := 0;
      inFlight := map[];
      this.addressCache := addressCache;
      issued := 0;
      owner := map[];
    }

    /** `RequestService::id`: the current counter, which moves on by one, wrapping at 2^64. */
    method Id() returns (id: u64)
      requires Valid()
      modifies this`nextId, this`issued
      ensures id == old(nextId) && nextId == WrappingAdd(old(nextId), 1)
      ensures issued == old(issued) + 1
      ensures id == old(issued) % U64_MODULUS
    {
      id := nextId;
      nextId := WrappingAdd(id, 1);
      issued := issued + 1;
      NextIdWraps(issued - 1);
    }

    /** The `NewRequest` arm of `process_command`: takes an id, records a fresh abort handle
        under it, and describes the future to spawn. Until 2^64 ids have been handed out
        since the counter was last zeroed, the id is new, so exactly one entry is added
        and no id changes hands. */
    method StartRequest(request: RestRequest, parseIp: IpParser) returns (task: Task)
      requires Valid()
      modifies this`nextId, this`issued, this`inFlight, this`owner
      ensures Valid()
      ensures task.id == old(nextId) && nextId == WrappingAdd(old(nextId), 1)
      ensures issued == old(issued) + 1
      ensures fresh(task.handle) && !task.handle.aborted
      ensures inFlight == old(inFlight)[task.id := task.handle]
      ensures owner == old(owner)[task.id := task.handle]
      ensures task.timeout == request.timeout
      ensures task.request == IntoRequest(request)
      ensures task.hostAddr == RequestSocketAddr(task.request.uri, parseIp)
      ensures old(issued) < U64_MODULUS ==>
                task.id !in old(owner) && task.id !in old(inFlight)
                && |inFlight.Keys| == |old(inFlight).Keys| + 1
    {
      var id := Id();
      var timeout := request.timeout;
      var hyperRequest := IntoRequest(request);
      var hostAddr := RequestSocketAddr(hyperRequest.uri, parseIp);
      var handle := new AbortHandle();
      task := Task(id, timeout, hostAddr, hyperRequest, handle);
      if old(issued) < U64_MODULUS {
        assert id !in old(owner) && id !in old(inFlight);
        assert (inFlight[id := handle]).Keys == inFlight.Keys + {id};
      }
      inFlight := inFlight[id := handle];
      owner := owner[id := handle];
    }

    /** The `RequestFinished` arm of `process_command`: drops the entry for `id`, and no
        other. The handle dropped, if any, is the one that holds `id`. */
    method FinishRequest(id: u64)
      requires Valid()
      modifies this`inFlight
      ensures Valid()
      ensures inFlight == old(inFlight) - {id}
      ensures forall k :: k in old(inFlight) && k != id ==> k in inFlight && inFlight[k] == old(inFlight)[k]
      ensures id !in inFlight
      ensures id in old(inFlight) ==> id in owner && old(inFlight)[id] == owner[id]
    {
      inFlight := inFlight - {id};
    }

    /** `RequestService::reset`: aborts every request in flight, empties the table and sets
        the counter back to 0. */
    method Reset()
      requires Valid()
      modifies this`nextId, this`issued, this`inFlight, this`owner, inFlight.Values
      ensures Valid()
      ensures inFlight == map[] && nextId == 0
      ensures forall k :: k in old(inFlight) ==> old(inFlight)[k].aborted
      ensures issued == 0 && owner == map[]
    {
      var oldRequests := inFlight;
      inFlight := map[];
      AbortAll(oldRequests);
      nextId := 0;
      issued := 0;
      owner := map[];
    }

    /** A reset that aborts and empties like `Reset` but keeps the counter running, so that
        an id is not handed out again while a request that held it may still report back. */
    method ResetRetainingIds()
      requires Valid()
      modifies this`inFlight, inFlight.Values
      ensures Valid()
      ensures inFlight == map[]
      ensures nextId == old(nextId) && issued == old(issued) && owner == old(owner)
      ensures forall k :: k in old(inFlight) ==> old(inFlight)[k].aborted
    {
      var oldRequests := inFlight;
      inFlight := map[];
      AbortAll(oldRequests);
    }

    /** `RequestService::process_command`. */
    method ProcessCommand(command: Command, parseIp: IpParser) returns (task: Option<Task>)
      requires Valid()
      modifies this`nextId, this`issued, this`inFlight, this`owner, inFlight.Values
      ensures Valid()
      ensures task.Some? <==> command.NewRequest?
      ensures command.NewRequest? ==>
                && task.value.id == old(nextId) && nextId == WrappingAdd(old(nextId), 1)
                && fresh(task.value.handle) && !task.value.handle.aborted
                && inFlight == old(inFlight)[task.value.id := task.value.handle]
                && owner == old(owner)[task.value.id := task.value.handle]
                && task.value.timeout == command.request.timeout
                && task.value.request == IntoRequest(command.request)
                && task.value.hostAddr == RequestSocketAddr(task.value.request.uri, parseIp)
                && issued == old(issued) + 1
                && (old(issued) < U64_MODULUS ==>
                      task.value.id !in old(owner) && task.value.id !in old(inFlight)
                      && |inFlight.Keys| == |old(inFlight).Keys| + 1)
      ensures command.RequestFinished? ==>
                inFlight == old(inFlight) - {command.id} && nextId == old(nextId)
                && owner == old(owner) && issued == old(issued)
      ensures command.Reset? ==>
                && inFlight == map[] && nextId == 0 && issued == 0 && owner == map[]
                && forall k :: k in old(inFlight) ==> old(inFlight)[k].aborted
      ensures !command.Reset? ==>
                forall k :: k in old(inFlight) ==> old(inFlight)[k].aborted == old(inFlight[k].aborted)
    {
      match command
      case NewRequest(request) =>
        var t := StartRequest(request, parseIp);
        task := Some(t);
      case RequestFinished(id) =>
        FinishRequest(id);
        task := None;
      case Reset =>
        Reset();
        task := None;
    }

    /** The body of the spawned future, run to its end: the response for the caller, the
        failure (if any) reported to the address cache, and the `RequestFinished` command
        it sends back to the service. */
    method RunTask(task: Task, outcome: Outcome) returns (response: Result<Response>, finished: Command)
      modifies addressCache
      ensures response == CompletedResponse(outcome)
      ensures finished == RequestFinished(task.id)
      ensures FailureToRegister(task.hostAddr, response).None? ==>
                addressCache.failures == old(addressCache.failures)
      ensures FailureToRegister(task.hostAddr, response).Some? ==>
                addressCache.failures == old(addressCache.failures)
                                         + [FailureToRegister(task.hostAddr, response).value]
    {
      response := Flatten(Flatten(NestedResult(outcome)));
      if task.hostAddr.Some? && response.Err? {
        match response.error {
          case HyperError => addressCache.RegisterFailure(task.hostAddr.value, response.error);
          case TimeoutError => addressCache.RegisterFailure(task.hostAddr.value, response.error);
          case _ =>
        }
      }
      finished := RequestFinished(task.id);
    }
  }

  /** Counting on from `n` ids: the counter after one more id is `n + 1` modulo 2^64. */
  lemma NextIdWraps(n: nat)
    ensures WrappingAdd(n % U64_MODULUS, 1) == (n + 1) % U64_MODULUS
  {
  }

  /** With the counter zeroed on reset, a request cancelled by a reset can still report
      back after a new request got the same id. Its `RequestFinished` then removes the new
      request's entry, and the next reset does not abort the new request, which is still
      running. */
  method StaleFinishEscapesReset(request: RestRequest, parseIp: IpParser)
    returns (service: RequestService, live: AbortHandle)
    ensures service.Valid() && service.inFlight == map[]
    ensures !live.aborted
  {
    var cache := new AddressCache();
    service := new RequestService(cache);
    var first := service.ProcessCommand(NewRequest(request), parseIp);
    var _ := service.ProcessCommand(Reset, parseIp);
    var second := service.ProcessCommand(NewRequest(request), parseIp);
    live := second.value.handle;
    assert service.inFlight == map[0 := live];
    var _, finished := service.RunTask(first.value, AbortedByHandle);
    var _ := service.ProcessCommand(finished, parseIp);
    var _ := service.ProcessCommand(Reset, parseIp);
  }

  /** The same interleaving with `ResetRetainingIds`: the late `RequestFinished` of the
      cancelled request leaves the new request's entry alone, and the second reset aborts it. */
  method StaleFinishAfterRetainingReset(request: RestRequest, parseIp: IpParser)
    returns (service: RequestService, live: AbortHandle)
    ensures service.Valid() && service.inFlight == map[]
    ensures live.aborted
  {
    var cache := new AddressCache();
    service := new RequestService(cache);
    var first := service.StartRequest(request, parseIp);
    service.ResetRetainingIds();
    var second := service.StartRequest(request, parseIp);
    live := second.handle;
    var _, finished := service.RunTask(first, AbortedByHandle);
    service.FinishRequest(finished.id);
    service.ResetRetainingIds();
  }
}
