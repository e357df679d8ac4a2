# MSIL feature-service extraction: a Dafny model of the paging core

`msil-api-data-get.py` downloads GeoJSON features from the MSIL map
service layer by layer. For each layer it first asks how many records the
Japan envelope holds. It then pages through the records with
`resultOffset`, retries throttled requests with a backoff, and checks that
the number of features fetched equals that count. Finally it tags the five
depth-contour layers with their interval and merges them into one
collection.

This project models that core and proves properties of it:

- `wrappers.dfy` (`Wrappers`): `Option` and `Result`.
- `responses.dfy` (`Responses`): the remote service as an oracle from
  `(resultOffset, attempt number)` to the outcome of that attempt (a status
  with a parsed body, or a transport failure), plus the error and result
  types.
- `retry.dfy` (`Retry`): the per-page `for attempt in range(retry)` loop.
  `Run` is its recursive specification and `RetryPage` is the loop itself,
  proved equal to `Run`.
- `paging.dfy` (`Paging`): the `while True` offset loop of `fetch_geojson`.
  The run is described request by request (`ChunkAfter`, `Collected`,
  `FirstStop`, `PagingResult`). `FetchGeoJson` is the loop, proved against
  those functions. It returns the result together with a log of the offsets
  requested and of every `time.sleep`.
- `count_check.dfy` (`CountCheck`): `get_count` and `fetch_and_verify`.
- `contours.dfy` (`Contours`): the contour loop of `main`. Features are
  objects whose `properties` are replaced in place. Each layer's file is
  written before its features are tagged, so `saved` keeps the properties
  as fetched.

### Behaviour worth knowing

- **Running out of retries.** One might expect exhausting the retry budget
  to be fatal for the layer. In the code, when every attempt is throttled
  (429 or 503), or transport failures are followed by a throttled last
  attempt, the `for` loop simply ends. It raises nothing and leaves
  `chunk` as it was:
  - On the first page, `chunk` was never assigned, and reading it raises
    (`ChunkUnbound`; see `Paging.ThrottledFirstPageUnbound`).
  - On a later page, the previous page's `chunk` is reused. Its features are
    appended a second time and paging goes on
    (`Paging.ThrottledLaterPageRepeats`).

  So a fetch can succeed with duplicated features and without the throttled
  page. Apart from the reply-parsing failures listed under "Left out", a
  fetch ends with an error in only three cases: a transport failure on the
  last attempt, a status other than 200, 429 and 503, or an unbound `chunk`
  after a first page whose retry loop ended that way.
- **Backoff.** The backoff is linear, `2 * (attempt + 1)` seconds, even
  though the code comment calls it exponential.
- **Count request errors.** The count request raises only for the statuses
  `raise_for_status` rejects, that is 400 to 599. Any other status is read
  as a count reply.

## Model

| member | source | states |
|---|---|---|
| Retry.Run | msil-api-data-get.py:72-85 | The retry loop's outcome, number of attempts and backoffs. Never more attempts than `range(retry)` allows. Ends without a page only after the whole budget. |
| Retry.Backoffs | msil-api-data-get.py:79-85 | The backoffs after attempts lo to hi-1 are 2(lo+1), 2(lo+2), … seconds, one per attempt. |
| Retry.RetryPage | msil-api-data-get.py:72-85 | The imperative retry loop gives the outcome, attempt count and backoff sequence of `Run`. |
| Retry.StopsAtFirstDecisive | msil-api-data-get.py:72-85 | The loop stops at the first attempt that is not throttled. This is a reply other than 429 or 503, or a transport failure on the last attempt. It makes d+1 attempts after backing off once per earlier attempt. A 200 accepts that reply's body; any other status raises with it; a transport failure is re-raised. |
| Retry.ExhaustsWithoutDecisive | msil-api-data-get.py:72-85 | If no attempt is decisive, the loop uses the whole budget. It backs off after every attempt, the last included, and ends without a page and without raising. |
| Retry.ExhaustedOnlyWhenAllThrottled | msil-api-data-get.py:72-87 | Conversely, ending without a page means that every attempt was throttled or a transport failure before the last, and that the last attempt was a 429 or 503. |
| Retry.TwoThrottlesThenOk | msil-api-data-get.py:75-80 | 429, 429, then 200: accepted on the third attempt, after sleeps of 2 s and 4 s. |
| Retry.ServerErrorNotRetried | msil-api-data-get.py:78-81 | A 500 reply raises after one attempt, with no sleep. |
| Retry.AllThrottledExhausts | msil-api-data-get.py:72-80 | Five throttled attempts: no page and no exception, after sleeps of 2, 4, 6, 8 and 10 s. |
| Paging.BackoffPausesAt | msil-api-data-get.py:79-85 | The i-th sleep logged for a request's retries is its i-th backoff, in order. |
| Paging.Offsets | msil-api-data-get.py:53-96 | The k-th request asks for `resultOffset` k·pageSize. |
| Paging.FirstStop | msil-api-data-get.py:55-94 | The first request that ends the loop: it raised, found `chunk` unbound, or read fewer than pageSize features. No earlier request ends it. |
| Paging.FetchGeoJson | msil-api-data-get.py:47-99 | Requests 0…FirstStop are made, at offsets 0, pageSize, 2·pageSize, …. The result is the error of the last request or the concatenation of all pages read. The sleeps are each request's backoffs, with a `sleep_sec` gap between requests. |
| Paging.ShortPageEndsLoop | msil-api-data-get.py:93-94 | A page accepted with fewer than pageSize features is the last request, and the fetch returns everything collected. |
| Paging.FullPageRequestsNext | msil-api-data-get.py:93-97 | A page accepted with pageSize features or more is always followed by another request. |
| Paging.ThrottledFirstPageUnbound | msil-api-data-get.py:72-87 | A first page whose retry loop ends without a page (every attempt throttled, or transport failures followed by a throttled last attempt) ends the fetch with the unbound `chunk` error. |
| Paging.ThrottledLaterPageRepeats | msil-api-data-get.py:72-88 | A later page whose retry loop ends without a page (every attempt throttled, or transport failures followed by a throttled last attempt) appends the previous page again, and the loop continues. |
| Paging.CollectedGrows | msil-api-data-get.py:52-88 | The accumulator only grows: what was collected after request j is a prefix of what was collected after any later request. |
| Paging.CollectedAtLeastFullPages | msil-api-data-get.py:88-96 | After k+1 requests that all continue the loop, at least (k+1)·pageSize features have been collected. |
| Paging.AcceptedAtOnce | msil-api-data-get.py:74-77 | A request answered 200 at once is accepted after one attempt, with no sleep, and contributes exactly its page. |
| Paging.ThreePagesExample | msil-api-data-get.py:53-99 | Pages of 1000, 1000 and 400: three requests, and 2400 features in page order. |
| Paging.ExactMultipleExample | msil-api-data-get.py:93-96 | 2000 records in two full pages: a third, empty request is made, and the result holds both pages. |
| CountCheck.GetCount | msil-api-data-get.py:29-44 | Succeeds exactly when the count reply's status is not a 4xx or 5xx. Gives the `count` member, or 0 when it is absent. Otherwise raises with the status; a transport failure propagates as `TransportError`. |
| CountCheck.FetchAndVerify | msil-api-data-get.py:108-124 | A failed count request makes no page request. Otherwise the layer is paged with page size 1000, retry 5 and pause 0.2 s. Its error propagates, or the collection is returned with the expected count, the number of features, and whether they match (a mismatch is not an error). |
| Contours.Tagged | msil-api-data-get.py:176-178 | A tagged feature's properties have `interval_m` set to the interval and every other original property unchanged. No other key is added; a missing or empty properties member starts from an empty map. |
| Contours.TaggedIdempotent | msil-api-data-get.py:175-178 | Tagging a feature twice with the same interval gives the same properties as tagging it once. |
| Contours.Snapshot | msil-api-data-get.py:102-104 | The saved file records every feature's geometry and properties as they are when it is written. |
| Contours.TagLayer | msil-api-data-get.py:175-179 | Appends the layer's features to the merged list in order, and tags each one in place with the layer's interval, starting from its properties before the loop. |
| Contours.MergeContours | msil-api-data-get.py:161-179 | The merged list is every layer's features in layer order. Each layer's saved file holds its features as fetched. Every feature ends up tagged with its own layer's interval. |
| Contours.FlattenLength | msil-api-data-get.py:161-179 | The merged list holds as many features as the layers together. |
| Contours.FiveLayersLength | msil-api-data-get.py:153-179 | With five layers, the merged count is the sum of the five layer counts. |
| Contours.MergeDepthContours | msil-api-data-get.py:153-182 | With the configured layers (10 at 20 m, 11 at 50 m, 12 at 100 m, 13 at 150 m, 14 at 200 m), the merged collection holds all the layers' features, as many as the five together, each tagged with its own interval. |

## Left out

- The HTTP session, headers, query parameters (the envelope, `outFields`, the subscription key) and the 60-second timeout. The service is an oracle from `(resultOffset, attempt)` to an outcome.
- Parsing the reply with `r.json()`. A 200 reply carries its parsed body. A body that is not valid JSON (retried as a `RequestException`) or not an object is not modelled. The body's `features` member is either absent or a list. For a member that is present but `null`, `chunk.get("features", [])` gives `None` and `features.extend(None)` raises `TypeError`. The model does not represent that case, so it cannot raise there.
- The 500-character `r.text` excerpt in the `RuntimeError` message. `StatusError` keeps only the status.
- `time.sleep` does not wait. Each call is recorded in the `pauses` log.
- `print` output, including the `exceededTransferLimit` note and the match/mismatch lines. The mismatch line is modelled as the `matched` flag.
- `save_geojson` and file I/O. A layer's file is modelled as the snapshot of its features when it is written. The merged file and the output directory are not modelled.
- Paging.FetchGeoJson: a server that never returns a short page, an error or an unbound `chunk` makes the source loop forever. The model takes a ghost request `last` that ends the loop and does not cover divergence. A `page_size` of 0 or less is excluded, since the loop would then never advance.
- CountCheck.GetCount: the count is taken to be an integer when present. `int()` of a string or float count, and a failure to convert it, are not modelled. A transport failure of the count request is an error without retry, as in the source.
- The island, undersea-feature and submarine-cable calls in `main`: they are `fetch_and_verify` calls with other arguments, covered by `CountCheck.FetchAndVerify`.
- Contours.MergeContours takes the collections of the five layers as input. In the source each one is fetched inside the loop; the fetch is modelled by `CountCheck.FetchAndVerify`.
- Contours.MergeContours requires that no feature object belongs to two layers, as holds for separately parsed replies. Two features sharing one properties dictionary (aliasing of the dict mutated in place) cannot arise from parsing and is not modelled. Properties are values.
- Feature members other than `geometry` and `properties`. JSON numbers are integers or reals, without the distinctions of Python's `int`/`float`.
