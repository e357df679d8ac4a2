/**
 * The remote feature service, abstracted. The HTTP session, the query
 * parameters, the timeout and JSON parsing are replaced by an oracle that says,
 * for the request at a given `resultOffset` and a given attempt number, what
 * came back: a status with a parsed body, or a transport failure.
 */
module Responses {
  import opened Wrappers

  /** A parsed GeoJSON page: its `features` member may be absent. */
  datatype Body<F> = Body(features: Option<seq<F>>)

  /** `chunk.get("features", [])`: the features of a page, none when the key is absent. */
  function Got<F>(body: Body<F>): seq<F> {
    body.features.GetOr([])
  }

  /** What one attempt of a request produced. */
  datatype Attempt<F> =
    | Response(status: int, body: Body<F>)   // an HTTP reply; `body` matters only for status 200
    | TransportFailure                       // a `requests.RequestException`

  /** The service: (resultOffset, attempt number) to the outcome of that attempt. */
  type Server<F> = (int, nat) -> Attempt<F>

  /** The exceptions that escape a fetch. */
  datatype FetchError =
    | StatusError(status: int)   // `RuntimeError` for a status other than 200, 429 and 503
    | TransportError             // a `RequestException` re-raised on the last attempt
    | ChunkUnbound               // `chunk` read before any attempt assigned it
    | HttpError(status: int)     // `raise_for_status` on the count-only request

  /** `{"type": "FeatureCollection", "features": [...]}`; the type tag is fixed. */
  datatype FeatureCollection<F> = FeatureCollection(features: seq<F>)

  /** One `time.sleep` call: a retry backoff in whole seconds, or the pause between pages. */
  datatype Pause = Backoff(backoffSeconds: nat) | Gap(gapSeconds: real)
}
