/**
 * The offset loop of `fetch_geojson`. Starting at offset 0, each iteration
 * requests one page with `resultOffset = offset`, runs the retry loop on it,
 * appends the page's features, stops at the first page shorter than
 * `pageSize`, and otherwise advances the offset by `pageSize` and pauses.
 *
 * The functions below describe the run request by request; request `k`
 * asks for offset `k * pageSize`. `FetchGeoJson` is the loop itself.
 */
module Paging {
  import opened Wrappers
  import opened Responses
  import opened Retry

  /** The outcomes of the attempts the budget allows for the request at `offset`. */
  function Script<F>(server: Server<F>, offset: int, retry: int): (s: seq<Attempt<F>>)
    ensures |s| == Budget(retry)
    ensures forall a :: 0 <= a < |s| ==> s[a] == server(offset, a)
  {
    Attempts(server, offset, Budget(retry))
  }

  /** The outcomes of attempts 0 to `n - 1` at `offset`. */
  function Attempts<F>(server: Server<F>, offset: int, n: nat): (s: seq<Attempt<F>>)
    ensures |s| == n
    ensures forall a :: 0 <= a < n ==> s[a] == server(offset, a)
  {
    if n == 0 then [] else Attempts(server, offset, n - 1) + [server(offset, n - 1)]
  }

  /** The retry loop of request `k`. */
  function PageRun<F>(server: Server<F>, pageSize: int, retry: int, k: nat): RetryRun<F> {
    Run(Script(server, k * pageSize, retry), retry, 0)
  }

  /**
   * The value of `chunk` once request `k` has been made: its own page when
   * accepted, otherwise the one left over from an earlier request, and none
   * when no request so far has been accepted.
   */
  function ChunkAfter<F>(server: Server<F>, pageSize: int, retry: int, k: nat): Option<Body<F>> {
    match PageRun(server, pageSize, retry, k).outcome
    case Accepted(body) => Some(body)
    case _ => if k == 0 then None else ChunkAfter(server, pageSize, retry, k - 1)
  }

  /**
   * Request `k` ends the loop: its retry loop raised, `chunk` is still
   * unbound, or the features read from `chunk` are fewer than `pageSize`.
   */
  predicate Stops<F>(server: Server<F>, pageSize: int, retry: int, k: nat) {
    PageRun(server, pageSize, retry, k).outcome.Raised?
    || ChunkAfter(server, pageSize, retry, k).None?
    || |Got(ChunkAfter(server, pageSize, retry, k).value)| < pageSize
  }

  /** The features read from `chunk` after request `k`. */
  function PageFeatures<F>(server: Server<F>, pageSize: int, retry: int, k: nat): seq<F> {
    match ChunkAfter(server, pageSize, retry, k)
    case Some(body) => Got(body)
    case None => []
  }

  /** The accumulated `features` after requests 0 to `k`: their pages, in order. */
  function Collected<F>(server: Server<F>, pageSize: int, retry: int, k: nat): seq<F> {
    (if k == 0 then [] else Collected(server, pageSize, retry, k - 1))
      + PageFeatures(server, pageSize, retry, k)
  }

  /** What `fetch_geojson` returns or raises when request `k` is the one that ends the loop. */
  function PagingResult<F>(server: Server<F>, pageSize: int, retry: int, k: nat)
    : Result<FeatureCollection<F>, FetchError>
  {
    var run := PageRun(server, pageSize, retry, k);
    if run.outcome.Raised? then Err(run.outcome.error)
    else if ChunkAfter(server, pageSize, retry, k).None? then Err(ChunkUnbound)
    else Ok(FeatureCollection(Collected(server, pageSize, retry, k)))
  }

  /** `backoffs` as a log of `time.sleep` calls. */
  function BackoffPauses(backoffs: seq<nat>): (p: seq<Pause>)
    ensures |p| == |backoffs|
  {
    if backoffs == [] then [] else [Backoff(backoffs[0])] + BackoffPauses(backoffs[1..])
  }

  /** The i-th sleep of the log is the i-th backoff. */
  lemma {:induction false} BackoffPausesAt(backoffs: seq<nat>, i: nat)
    requires i < |backoffs|
    ensures BackoffPauses(backoffs)[i] == Backoff(backoffs[i])
  {
    if i > 0 {
      BackoffPausesAt(backoffs[1..], i - 1);
    }
  }

  /** The sleeps up to the end of request `k`: each request's backoffs, with a gap between requests. */
  function PausesUpTo<F>(server: Server<F>, pageSize: int, retry: int, sleepSec: real, k: nat): seq<Pause> {
    (if k == 0 then [] else PausesUpTo(server, pageSize, retry, sleepSec, k - 1) + [Gap(sleepSec)])
      + BackoffPauses(PageRun(server, pageSize, retry, k).backoffs)
  }

  /** The offsets of the first `n` requests: 0, pageSize, 2 * pageSize, ... */
  function Offsets(pageSize: int, n: nat): (s: seq<int>)
    ensures |s| == n
    ensures forall k :: 0 <= k < n ==> s[k] == k * pageSize
  {
    if n == 0 then [] else Offsets(pageSize, n - 1) + [(n - 1) * pageSize]
  }

  /** The first request at or after `from` that ends the loop. */
  function FirstStop<F>(server: Server<F>, pageSize: int, retry: int, from: nat, last: nat): (r: nat)
    requires from <= last && Stops(server, pageSize, retry, last)
    ensures from <= r <= last
    ensures Stops(server, pageSize, retry, r)
    ensures forall j :: from <= j < r ==> !Stops(server, pageSize, retry, j)
    decreases last - from
  {
    if Stops(server, pageSize, retry, from) then from
    else FirstStop(server, pageSize, retry, from + 1, last)
  }

  /** A request that is made and ends the loop is the first stop. */
  lemma FirstStopAt<F>(server: Server<F>, pageSize: int, retry: int, k: nat, last: nat)
    requires Stops(server, pageSize, retry, last)
    requires k <= FirstStop(server, pageSize, retry, 0, last)
    requires Stops(server, pageSize, retry, k)
    ensures FirstStop(server, pageSize, retry, 0, last) == k
  {
  }

  /** A request that is made and does not end the loop is followed by another. */
  lemma NotFirstStop<F>(server: Server<F>, pageSize: int, retry: int, k: nat, last: nat)
    requires Stops(server, pageSize, retry, last)
    requires k <= FirstStop(server, pageSize, retry, 0, last)
    requires !Stops(server, pageSize, retry, k)
    ensures k < FirstStop(server, pageSize, retry, 0, last)
  {
  }

  /** The loop's variables before request `k`: what requests 0 to `k - 1` left behind. */
  ghost predicate Before<F>(server: Server<F>, pageSize: int, retry: int, sleepSec: real, k: nat,
                            chunk: Option<Body<F>>, features: seq<F>, pauses: seq<Pause>)
  {
    if k == 0 then
      chunk == None && features == [] && pauses == []
    else
      chunk == ChunkAfter(server, pageSize, retry, k - 1)
      && features == Collected(server, pageSize, retry, k - 1)
      && pauses == PausesUpTo(server, pageSize, retry, sleepSec, k - 1) + [Gap(sleepSec)]
  }

  /** What request `k` does to `chunk`, `features` and `pauses`. */
  lemma Step<F>(server: Server<F>, pageSize: int, retry: int, sleepSec: real, k: nat,
                chunk: Option<Body<F>>, features: seq<F>, pauses: seq<Pause>)
    requires Before(server, pageSize, retry, sleepSec, k, chunk, features, pauses)
    ensures pauses + BackoffPauses(PageRun(server, pageSize, retry, k).backoffs)
      == PausesUpTo(server, pageSize, retry, sleepSec, k)
    ensures ChunkAfter(server, pageSize, retry, k)
      == if PageRun(server, pageSize, retry, k).outcome.Accepted?
         then Some(PageRun(server, pageSize, retry, k).outcome.body) else chunk
    ensures ChunkAfter(server, pageSize, retry, k).Some?
      ==> features + Got(ChunkAfter(server, pageSize, retry, k).value) == Collected(server, pageSize, retry, k)
  {
  }

  /**
   * `fetch_geojson`. The ghost `last` names a request that ends the loop; the
   * source's `while True` has no other bound. `requests` logs the
   * `resultOffset` of every page request and `pauses` every `time.sleep`.
   */
  method FetchGeoJson<F>(server: Server<F>, pageSize: int, retry: int, sleepSec: real, ghost last: nat)
    returns (r: Result<FeatureCollection<F>, FetchError>, requests: seq<int>, pauses: seq<Pause>)
    requires pageSize > 0
    requires Stops(server, pageSize, retry, last)
    ensures |requests| == FirstStop(server, pageSize, retry, 0, last) + 1
    ensures requests == Offsets(pageSize, |requests|)
    ensures r == PagingResult(server, pageSize, retry, |requests| - 1)
    ensures pauses == PausesUpTo(server, pageSize, retry, sleepSec, |requests| - 1)
  {
    var features: seq<F> := [];
    var offset := 0;
    var chunk: Option<Body<F>> := None;
    ghost var k: nat := 0;
    requests, pauses := [], [];
    while true
      invariant k <= FirstStop(server, pageSize, retry, 0, last)
      invariant offset == k * pageSize
      invariant requests == Offsets(pageSize, k)
      invariant Before(server, pageSize, retry, sleepSec, k, chunk, features, pauses)
      decreases last - k
    {
      Step(server, pageSize, retry, sleepSec, k, chunk, features, pauses);
      requests := requests + [offset];
      var outcome, attempts, backoffs := RetryPage(Script(server, offset, retry), retry);
      pauses := pauses + BackoffPauses(backoffs);
      if outcome.Raised? {
        FirstStopAt(server, pageSize, retry, k, last);
        r := Err(outcome.error);
        return;
      }
      if outcome.Accepted? {
        chunk := Some(outcome.body);
      }
      if chunk.None? {
        FirstStopAt(server, pageSize, retry, k, last);
        r := Err(ChunkUnbound);
        return;
      }
      var got := Got(chunk.value);
      features := features + got;
      if |got| < pageSize {
        FirstStopAt(server, pageSize, retry, k, last);
        r := Ok(FeatureCollection(features));
        return;
      }
      NotFirstStop(server, pageSize, retry, k, last);
      assert offset + pageSize == (k + 1) * pageSize;
      offset := offset + pageSize;
      pauses := pauses + [Gap(sleepSec)];
      k := k + 1;
    }
  }

  /** A page that was requested and accepted with fewer than `pageSize` features is the last request. */
  lemma ShortPageEndsLoop<F>(server: Server<F>, pageSize: int, retry: int, k: nat, last: nat, body: Body<F>)
    requires Stops(server, pageSize, retry, last)
    requires k <= FirstStop(server, pageSize, retry, 0, last)
    requires PageRun(server, pageSize, retry, k).outcome == Accepted(body)
    requires |Got(body)| < pageSize
    ensures FirstStop(server, pageSize, retry, 0, last) == k
    ensures PagingResult(server, pageSize, retry, k) == Ok(FeatureCollection(Collected(server, pageSize, retry, k)))
  {
    assert Stops(server, pageSize, retry, k);
    FirstStopAt(server, pageSize, retry, k, last);
  }

  /**
   * A page that was requested and accepted with at least `pageSize` features
   * is followed by another request, even when it holds the very last records.
   */
  lemma FullPageRequestsNext<F>(server: Server<F>, pageSize: int, retry: int, k: nat, last: nat, body: Body<F>)
    requires Stops(server, pageSize, retry, last)
    requires k <= FirstStop(server, pageSize, retry, 0, last)
    requires PageRun(server, pageSize, retry, k).outcome == Accepted(body)
    requires |Got(body)| >= pageSize
    ensures k < FirstStop(server, pageSize, retry, 0, last)
  {
    assert !Stops(server, pageSize, retry, k);
  }

  /**
   * A first page whose retry loop ends without a page (every attempt
   * throttled, or transport failures and then a throttled last attempt)
   * leaves `chunk` unbound: the fetch raises.
   */
  lemma ThrottledFirstPageUnbound<F>(server: Server<F>, pageSize: int, retry: int, last: nat)
    requires Stops(server, pageSize, retry, last)
    requires PageRun(server, pageSize, retry, 0).outcome.Exhausted?
    ensures FirstStop(server, pageSize, retry, 0, last) == 0
    ensures PagingResult(server, pageSize, retry, 0) == Err(ChunkUnbound)
  {
    assert Stops(server, pageSize, retry, 0);
  }

  /**
   * A later page whose retry loop ends without a page re-uses the previous
   * page's `chunk`: its features are appended a second time and, since that
   * page was full, the loop goes on to the next offset.
   */
  lemma ThrottledLaterPageRepeats<F>(server: Server<F>, pageSize: int, retry: int, k: nat, last: nat)
    requires Stops(server, pageSize, retry, last)
    requires 0 < k <= FirstStop(server, pageSize, retry, 0, last)
    requires PageRun(server, pageSize, retry, k).outcome.Exhausted?
    ensures k < FirstStop(server, pageSize, retry, 0, last)
    ensures Collected(server, pageSize, retry, k)
      == Collected(server, pageSize, retry, k - 1) + PageFeatures(server, pageSize, retry, k - 1)
  {
    assert !Stops(server, pageSize, retry, k - 1);
    assert ChunkAfter(server, pageSize, retry, k) == ChunkAfter(server, pageSize, retry, k - 1);
  }

  /** The accumulator only grows: what was collected after request `j` is a prefix of what is collected later. */
  lemma {:induction false} CollectedGrows<F>(server: Server<F>, pageSize: int, retry: int, j: nat, k: nat)
    requires j <= k
    ensures Collected(server, pageSize, retry, j) <= Collected(server, pageSize, retry, k)
    decreases k - j
  {
    if j < k {
      CollectedGrows(server, pageSize, retry, j, k - 1);
    }
  }

  /**
   * When requests 0 to `k` all continue the loop, each added at least
   * `pageSize` features: at least `(k + 1) * pageSize` have been collected.
   */
  lemma {:induction false} CollectedAtLeastFullPages<F>(server: Server<F>, pageSize: int, retry: int, k: nat)
    requires pageSize > 0
    requires forall j :: 0 <= j <= k ==> !Stops(server, pageSize, retry, j)
    ensures |Collected(server, pageSize, retry, k)| >= (k + 1) * pageSize
  {
    assert !Stops(server, pageSize, retry, k);
    if k > 0 {
      CollectedAtLeastFullPages(server, pageSize, retry, k - 1);
    }
  }

  /** Request `k` is answered on its first attempt with status 200 and the page `page`. */
  ghost predicate AnswersAtOnce<F>(server: Server<F>, pageSize: int, k: nat, page: seq<F>) {
    server(k * pageSize, 0) == Response(200, Body(Some(page)))
  }

  /** A request answered at once with `page` is accepted with exactly that page. */
  lemma AcceptedAtOnce<F>(server: Server<F>, pageSize: int, retry: int, k: nat, page: seq<F>)
    requires retry > 0
    requires AnswersAtOnce(server, pageSize, k, page)
    ensures PageRun(server, pageSize, retry, k) == RetryRun(Accepted(Body(Some(page))), 1, [])
    ensures PageFeatures(server, pageSize, retry, k) == page
  {
    StopsAtFirstDecisive(Script(server, k * pageSize, retry), retry, 0, 0);
  }

  /**
   * Pages of 1000, 1000 and 400 features with a page size of 1000: three
   * requests, at offsets 0, 1000 and 2000, and 2400 features in order.
   */
  lemma ThreePagesExample<F>(server: Server<F>, p0: seq<F>, p1: seq<F>, p2: seq<F>)
    requires |p0| == 1000 && |p1| == 1000 && |p2| == 400
    requires AnswersAtOnce(server, 1000, 0, p0)
    requires AnswersAtOnce(server, 1000, 1, p1)
    requires AnswersAtOnce(server, 1000, 2, p2)
    ensures Stops(server, 1000, 5, 2)
    ensures FirstStop(server, 1000, 5, 0, 2) == 2
    ensures PagingResult(server, 1000, 5, 2) == Ok(FeatureCollection(p0 + p1 + p2))
    ensures |p0 + p1 + p2| == 2400
  {
    AcceptedAtOnce(server, 1000, 5, 0, p0);
    AcceptedAtOnce(server, 1000, 5, 1, p1);
    AcceptedAtOnce(server, 1000, 5, 2, p2);
    assert !Stops(server, 1000, 5, 0) && !Stops(server, 1000, 5, 1);
    FirstStopAt(server, 1000, 5, 2, 2);
    assert Collected(server, 1000, 5, 0) == p0;
    assert Collected(server, 1000, 5, 1) == p0 + p1;
  }

  /**
   * 2000 records served as two full pages: the loop cannot tell the second
   * page was the last, so it makes a third request, which comes back empty.
   */
  lemma ExactMultipleExample<F>(server: Server<F>, p0: seq<F>, p1: seq<F>)
    requires |p0| == 1000 && |p1| == 1000
    requires AnswersAtOnce(server, 1000, 0, p0)
    requires AnswersAtOnce(server, 1000, 1, p1)
    requires AnswersAtOnce(server, 1000, 2, [])
    ensures Stops(server, 1000, 5, 2)
    ensures FirstStop(server, 1000, 5, 0, 2) == 2
    ensures PagingResult(server, 1000, 5, 2) == Ok(FeatureCollection(p0 + p1))
  {
    AcceptedAtOnce(server, 1000, 5, 0, p0);
    AcceptedAtOnce(server, 1000, 5, 1, p1);
    AcceptedAtOnce(server, 1000, 5, 2, []);
    assert !Stops(server, 1000, 5, 0) && !Stops(server, 1000, 5, 1);
    FirstStopAt(server, 1000, 5, 2, 2);
    assert Collected(server, 1000, 5, 0) == p0;
    assert Collected(server, 1000, 5, 1) == p0 + p1;
    assert PageFeatures(server, 1000, 5, 2) == [];
    assert Collected(server, 1000, 5, 2) == p0 + p1;
  }
}
