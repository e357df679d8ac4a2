/**
 * `get_count` and `fetch_and_verify`: ask the service how many records the
 * envelope holds, page through the layer with the default page size, retry
 * budget and pause, and report whether the counts agree. A disagreement is
 * only a warning.
 */
module CountCheck {
  import opened Wrappers
  import opened Responses
  import opened Retry
  import opened Paging

  /** `PAGE_SIZE` and the defaults of `fetch_geojson`. */
  const PageSize: int := 1000
  const DefaultRetry: int := 5
  const DefaultSleepSec: real := 0.2

  /** The reply to the count-only request: a status and the `count` member, if present. */
  datatype CountReply = CountResponse(status: int, count: Option<int>) | CountTransportFailure

  /** The statuses for which `raise_for_status` raises: client and server errors. */
  predicate RaisesForStatus(status: int) {
    400 <= status < 600
  }

  /** `get_count`: the reported count, 0 when the reply has none. */
  function GetCount(reply: CountReply): (r: Result<int, FetchError>)
    ensures r.Ok? <==> reply.CountResponse? && !RaisesForStatus(reply.status)
    ensures r.Ok? && reply.count.None? ==> r.value == 0
    ensures r.Ok? && reply.count.Some? ==> r.value == reply.count.value
    ensures reply.CountResponse? && RaisesForStatus(reply.status) ==> r == Err(HttpError(reply.status))
    ensures reply.CountTransportFailure? ==> r == Err(TransportError)
  {
    match reply
    case CountTransportFailure => Err(TransportError)
    case CountResponse(status, count) =>
      if RaisesForStatus(status) then Err(HttpError(status)) else Ok(count.GetOr(0))
  }

  /**
   * What `fetch_and_verify` returns, `(fc, expected, actual)`, with the
   * branch it printed: `matched` is the "counts match" line.
   */
  datatype Verified<F> = Verified(fc: FeatureCollection<F>, expected: int, actual: int, matched: bool)

  /**
   * `fetch_and_verify`. The count request comes first; if it raises, no page
   * is requested. Otherwise the layer is paged with the defaults, and a
   * successful fetch always returns, whether or not the counts agree.
   */
  method FetchAndVerify<F>(reply: CountReply, server: Server<F>, ghost last: nat)
    returns (r: Result<Verified<F>, FetchError>, requests: seq<int>, pauses: seq<Pause>)
    requires GetCount(reply).Ok? ==> Stops(server, PageSize, DefaultRetry, last)
    ensures GetCount(reply).Err? ==> r == Err(GetCount(reply).error) && requests == [] && pauses == []
    ensures GetCount(reply).Ok? ==> |requests| == FirstStop(server, PageSize, DefaultRetry, 0, last) + 1
    ensures GetCount(reply).Ok? ==> forall k :: 0 <= k < |requests| ==> requests[k] == k * PageSize
    ensures GetCount(reply).Ok?
      ==> pauses == PausesUpTo(server, PageSize, DefaultRetry, DefaultSleepSec, |requests| - 1)
    ensures GetCount(reply).Ok? && PagingResult(server, PageSize, DefaultRetry, |requests| - 1).Err?
      ==> r == Err(PagingResult(server, PageSize, DefaultRetry, |requests| - 1).error)
    ensures GetCount(reply).Ok? && PagingResult(server, PageSize, DefaultRetry, |requests| - 1).Ok?
      ==> r.Ok?
          && r.value.fc == PagingResult(server, PageSize, DefaultRetry, |requests| - 1).value
          && r.value.expected == GetCount(reply).value
    ensures r.Ok? ==> r.value.actual == |r.value.fc.features|
    ensures r.Ok? ==> (r.value.matched <==> r.value.expected == r.value.actual)
  {
    var counted := GetCount(reply);
    if counted.Err? {
      r, requests, pauses := Err(counted.error), [], [];
      return;
    }
    var expected := counted.value;
    var fetched;
    fetched, requests, pauses := FetchGeoJson(server, PageSize, DefaultRetry, DefaultSleepSec, last);
    if fetched.Err? {
      r := Err(fetched.error);
      return;
    }
    var fc := fetched.value;
    var actual := |fc.features|;
    r := Ok(Verified(fc, expected, actual, expected == actual));
  }
}
