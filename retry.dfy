/**
 * The per-page retry loop of `fetch_geojson`: at most `retry` attempts;
 * status 200 accepts the page, 429 and 503 back off `2 * (attempt + 1)`
 * seconds and try again, any other status raises at once, and a transport
 * failure backs off and tries again except on the last attempt, where it is
 * re-raised. When the last attempt is throttled and no earlier one was
 * decisive, the loop ends without raising and without a page (`Exhausted`).
 */
module Retry {
  import opened Wrappers
  import opened Responses

  /** The statuses retried as rate-limited or unavailable. */
  predicate IsThrottle(status: int) {
    status == 429 || status == 503
  }

  /** Seconds slept after the failed attempt with zero-based number `attempt`. */
  function BackoffSeconds(attempt: nat): nat {
    2 * (attempt + 1)
  }

  /** How many attempts `range(retry)` allows. */
  function Budget(retry: int): nat {
    if retry < 0 then 0 else retry
  }

  /** How the attempts at one page ended. */
  datatype Outcome<F> = Accepted(body: Body<F>) | Raised(error: FetchError) | Exhausted

  /** The outcome, the number of attempts made and the backoffs slept, in order. */
  datatype RetryRun<F> = RetryRun(outcome: Outcome<F>, attempts: nat, backoffs: seq<nat>)

  /**
   * The attempts from number `attempt` on, given the outcome of every attempt
   * the budget allows.
   */
  function Run<F>(outcomes: seq<Attempt<F>>, retry: int, attempt: nat): (r: RetryRun<F>)
    requires Budget(retry) <= |outcomes|
    ensures attempt <= r.attempts
    ensures attempt <= Budget(retry) ==> r.attempts <= Budget(retry)
    ensures |r.backoffs| <= r.attempts - attempt
    ensures r.outcome.Exhausted? ==> r.attempts == Budget(retry) || attempt > Budget(retry)
    decreases Budget(retry) - attempt
  {
    if attempt >= retry then RetryRun(Exhausted, attempt, [])
    else
      match outcomes[attempt]
      case Response(status, body) =>
        if status == 200 then RetryRun(Accepted(body), attempt + 1, [])
        else if IsThrottle(status) then BackOff(attempt, Run(outcomes, retry, attempt + 1))
        else RetryRun(Raised(StatusError(status)), attempt + 1, [])
      case TransportFailure =>
        if attempt == retry - 1 then RetryRun(Raised(TransportError), attempt + 1, [])
        else BackOff(attempt, Run(outcomes, retry, attempt + 1))
  }

  /** `rest`, preceded by the backoff slept after attempt `attempt`. */
  function BackOff<F>(attempt: nat, rest: RetryRun<F>): RetryRun<F> {
    rest.(backoffs := [BackoffSeconds(attempt)] + rest.backoffs)
  }

  /** The backoffs slept after attempts `lo` up to, not including, `hi`: 2(lo+1), 2(lo+2), ... */
  function Backoffs(lo: nat, hi: nat): (s: seq<nat>)
    requires lo <= hi
    ensures |s| == hi - lo
    ensures forall j :: 0 <= j < |s| ==> s[j] == 2 * (lo + j + 1)
    decreases hi - lo
  {
    if lo == hi then [] else [BackoffSeconds(lo)] + Backoffs(lo + 1, hi)
  }

  /**
   * An attempt that ends the loop: any reply but 429 and 503, or a transport
   * failure on the last attempt.
   */
  predicate Decisive<F>(a: Attempt<F>, isLast: bool) {
    match a
    case Response(status, _) => !IsThrottle(status)
    case TransportFailure => isLast
  }

  /**
   * The retry loop as the source runs it: the outcome, attempt count and
   * backoffs are those of the specification `Run`.
   */
  method RetryPage<F>(outcomes: seq<Attempt<F>>, retry: int)
    returns (outcome: Outcome<F>, attempts: nat, backoffs: seq<nat>)
    requires Budget(retry) <= |outcomes|
    ensures RetryRun(outcome, attempts, backoffs) == Run(outcomes, retry, 0)
  {
    backoffs := [];
    var attempt: nat := 0;
    while attempt < retry
      invariant attempt <= Budget(retry)
      invariant backoffs == Backoffs(0, attempt)
      invariant forall i :: 0 <= i < attempt ==> !Decisive(outcomes[i], i == retry - 1)
      decreases retry - attempt
    {
      if Decisive(outcomes[attempt], attempt == retry - 1) {
        StopsAtFirstDecisive(outcomes, retry, 0, attempt);
      }
      match outcomes[attempt] {
        case Response(status, body) =>
          if status == 200 {
            outcome, attempts := Accepted(body), attempt + 1;
            return;
          }
          if !IsThrottle(status) {
            outcome, attempts := Raised(StatusError(status)), attempt + 1;
            return;
          }
        case TransportFailure =>
          if attempt == retry - 1 {
            outcome, attempts := Raised(TransportError), attempt + 1;
            return;
          }
      }
      BackoffsSnoc(0, attempt);
      backoffs := backoffs + [BackoffSeconds(attempt)];
      attempt := attempt + 1;
    }
    ExhaustsWithoutDecisive(outcomes, retry, 0);
    outcome, attempts := Exhausted, attempt;
  }

  /** The backoffs up to `hi + 1` extend those up to `hi` by the one after attempt `hi`. */
  lemma BackoffsSnoc(lo: nat, hi: nat)
    requires lo <= hi
    ensures Backoffs(lo, hi + 1) == Backoffs(lo, hi) + [BackoffSeconds(hi)]
  {
    assert forall j :: 0 <= j < hi + 1 - lo ==> Backoffs(lo, hi + 1)[j] == (Backoffs(lo, hi) + [BackoffSeconds(hi)])[j];
  }

  /**
   * The loop stops at the first decisive attempt `d`: it makes `d + 1`
   * attempts, backs off after each earlier one, and its outcome is that of
   * attempt `d`.
   */
  lemma {:induction false} StopsAtFirstDecisive<F>(outcomes: seq<Attempt<F>>, retry: int, from: nat, d: nat)
    requires Budget(retry) <= |outcomes|
    requires from <= d < retry
    requires Decisive(outcomes[d], d == retry - 1)
    requires forall i :: from <= i < d ==> !Decisive(outcomes[i], i == retry - 1)
    ensures Run(outcomes, retry, from).attempts == d + 1
    ensures Run(outcomes, retry, from).backoffs == Backoffs(from, d)
    ensures outcomes[d].Response? && outcomes[d].status == 200
      ==> Run(outcomes, retry, from).outcome == Accepted(outcomes[d].body)
    ensures outcomes[d].Response? && outcomes[d].status != 200
      ==> Run(outcomes, retry, from).outcome == Raised(StatusError(outcomes[d].status))
    ensures outcomes[d].TransportFailure?
      ==> Run(outcomes, retry, from).outcome == Raised(TransportError)
    decreases d - from
  {
    if from < d {
      assert !Decisive(outcomes[from], from == retry - 1);
      StopsAtFirstDecisive(outcomes, retry, from + 1, d);
    }
  }

  /**
   * With no decisive attempt the loop uses the whole budget, backs off after
   * every attempt, the last one included, and ends without a page.
   */
  lemma {:induction false} ExhaustsWithoutDecisive<F>(outcomes: seq<Attempt<F>>, retry: int, from: nat)
    requires Budget(retry) <= |outcomes|
    requires from <= Budget(retry)
    requires forall i :: from <= i < retry ==> !Decisive(outcomes[i], i == retry - 1)
    ensures Run(outcomes, retry, from)
      == RetryRun(Exhausted, Budget(retry), Backoffs(from, Budget(retry)))
    decreases Budget(retry) - from
  {
    if from < retry {
      assert !Decisive(outcomes[from], from == retry - 1);
      ExhaustsWithoutDecisive(outcomes, retry, from + 1);
    }
  }

  /**
   * The loop ends without a page only if no attempt was decisive: every
   * attempt was throttled or a transport failure, and the last one (when
   * there was one) was throttled.
   */
  lemma {:induction false} ExhaustedOnlyWhenAllThrottled<F>(outcomes: seq<Attempt<F>>, retry: int, from: nat)
    requires Budget(retry) <= |outcomes|
    requires Run(outcomes, retry, from).outcome.Exhausted?
    ensures forall i :: from <= i < retry ==> !Decisive(outcomes[i], i == retry - 1)
    ensures from < retry ==> outcomes[retry - 1].Response? && IsThrottle(outcomes[retry - 1].status)
    decreases Budget(retry) - from
  {
    if from < retry {
      assert !Decisive(outcomes[from], from == retry - 1);
      ExhaustedOnlyWhenAllThrottled(outcomes, retry, from + 1);
    }
  }

  /** Two 429 replies and then a 200: accepted on the third attempt after backoffs of 2 and 4 seconds. */
  lemma TwoThrottlesThenOk<F>(outcomes: seq<Attempt<F>>, page: Body<F>)
    requires |outcomes| == 5
    requires outcomes[0].Response? && outcomes[0].status == 429
    requires outcomes[1].Response? && outcomes[1].status == 429
    requires outcomes[2] == Response(200, page)
    ensures Run(outcomes, 5, 0) == RetryRun(Accepted(page), 3, [2, 4])
  {
    StopsAtFirstDecisive(outcomes, 5, 0, 2);
  }

  /** A 500 reply raises on the first attempt, with no backoff and no further attempt. */
  lemma ServerErrorNotRetried<F>(outcomes: seq<Attempt<F>>, retry: int)
    requires 0 < retry <= |outcomes|
    requires outcomes[0].Response? && outcomes[0].status == 500
    ensures Run(outcomes, retry, 0) == RetryRun(Raised(StatusError(500)), 1, [])
  {
    StopsAtFirstDecisive(outcomes, retry, 0, 0);
  }

  /** Five throttled attempts: no page and no exception, after backoffs of 2, 4, 6, 8 and 10 seconds. */
  lemma AllThrottledExhausts<F>(outcomes: seq<Attempt<F>>)
    requires |outcomes| == 5
    requires forall i :: 0 <= i < 5 ==> outcomes[i].Response? && IsThrottle(outcomes[i].status)
    ensures Run(outcomes, 5, 0) == RetryRun(Exhausted, 5, [2, 4, 6, 8, 10])
  {
    ExhaustsWithoutDecisive(outcomes, 5, 0);
  }
}
