/** The schedule of the background task that refreshes the list of API addresses
    (`spawn_api_address_fetcher`): the first check is due 15 minutes after start; after a
    fetch the next one is due 24 hours later if it succeeded and 15 minutes later if it
    failed, counted from when the fetch finished. The timer that wakes the task every
    minute and the fetch itself are not modelled; a fetch is given by how and when it
    ended. */
module ApiAddressFetcher {
  import opened RestTypes

  /** `std::time::Instant`, in nanoseconds from an arbitrary origin. */
  type Instant = nat

  const API_IP_CHECK_DELAY: Duration := Seconds(15 * 60)
  const API_IP_CHECK_INTERVAL: Duration := Seconds(24 * 60 * 60)
  const API_IP_CHECK_ERROR_INTERVAL: Duration := Seconds(15 * 60)

  /** How a fetch of the API addresses ended, and when. Failing to store fetched addresses
      is only logged, so it counts as `Fetched`. */
  datatype FetchResult = Fetched(finishedAt: Instant) | FetchFailed(finishedAt: Instant)

  /** When the first check is due, for a task started at `start`. */
  function FirstCheck(start: Instant): (due: Instant)
    ensures due > start && due - start == API_IP_CHECK_DELAY
  {
    start + API_IP_CHECK_DELAY
  }

  /** A tick at `now` fetches only when the check is strictly overdue. */
  predicate CheckDue(nextCheck: Instant, now: Instant)
  {
    nextCheck < now
  }

  /** When the next check is due after a fetch. */
  function Rescheduled(result: FetchResult): (due: Instant)
    ensures result.Fetched? ==> due == result.finishedAt + API_IP_CHECK_INTERVAL
    ensures result.FetchFailed? ==> due == result.finishedAt + API_IP_CHECK_ERROR_INTERVAL
    ensures due >= result.finishedAt + API_IP_CHECK_ERROR_INTERVAL
  {
    match result
    case Fetched(at) => at + API_IP_CHECK_INTERVAL
    case FetchFailed(at) => at + API_IP_CHECK_ERROR_INTERVAL
  }

  /** One timer tick at `now`: when the check is due, the fetch `fetch` (started at `now`)
      runs and the next check is rescheduled from its end; otherwise nothing changes. */
  function Tick(nextCheck: Instant, now: Instant, fetch: FetchResult): (next: Instant)
    ensures !CheckDue(nextCheck, now) ==> next == nextCheck
    ensures CheckDue(nextCheck, now) ==> next == Rescheduled(fetch)
  {
    if CheckDue(nextCheck, now) then Rescheduled(fetch) else nextCheck
  }

  /** No fetch happens within the first 15 minutes: a tick that fetches is later than that. */
  lemma NoEarlyFetch(start: Instant, now: Instant)
    requires CheckDue(FirstCheck(start), now)
    ensures now > start + API_IP_CHECK_DELAY
  {
  }

  /** Two fetches are always more than 15 minutes apart, and more than 24 hours apart
      after a successful one: a fetch that starts at `started` and ends no earlier puts
      the next due time that far out. */
  lemma FetchesAreSpaced(started: Instant, nextCheck: Instant, fetch: FetchResult, later: Instant)
    requires CheckDue(nextCheck, started)
    requires fetch.finishedAt >= started
    requires CheckDue(Tick(nextCheck, started, fetch), later)
    ensures later > started + API_IP_CHECK_ERROR_INTERVAL
    ensures fetch.Fetched? ==> later > started + API_IP_CHECK_INTERVAL
  {
  }
}
