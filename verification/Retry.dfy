/** The retry header and the ladder of retry queues (src/messaging/retry.py). */
module Retry {
  import opened Common
  import opened Topology

  datatype HeaderValue = IntValue(n: int) | BoolValue(b: bool) | OtherValue(text: string)

  type Headers = map<string, HeaderValue>

  const RETRY_HEADER := "x-retry-count"
  const MAX_RETRIES := 3

  /** get_retry_count. In Python a bool is an int, so True counts as 1. */
  function RetryCount(headers: Headers): int {
    if RETRY_HEADER !in headers then 0
    else
      match headers[RETRY_HEADER]
      case IntValue(n) => n
      case BoolValue(b) => if b then 1 else 0
      case OtherValue(_) => 0
  }

  /** get_retry_routing_key, named by the level of the queue it leads to. */
  function RetryLevel(count: int): Option<Level> {
    if count == 0 then Some(After10s)
    else if count == 1 then Some(After60s)
    else if count == 2 then Some(After300s)
    else None
  }

  function NextHeaders(headers: Headers): Headers {
    headers[RETRY_HEADER := IntValue(RetryCount(headers) + 1)]
  }

  /** The header holds an integer other than 0, 1 and 2. */
  predicate OffLadder(headers: Headers) {
    "x-retry-count" in headers && headers["x-retry-count"].IntValue? && headers["x-retry-count"].n !in {0, 1, 2}
  }

  /** What the header says: a missing one, `False` and anything that is no
      integer count as none, `True` as one. With none, one or two retries behind
      it a message goes to the 10 s, 60 s or 300 s queue, with any other count
      nowhere, and the copy's header is one higher than the count. */
  lemma RetryLaw(headers: Headers)
    ensures "x-retry-count" !in headers ==>
              RetryLevel(RetryCount(headers)) == Some(After10s) && NextHeaders(headers)["x-retry-count"] == IntValue(1)
    ensures "x-retry-count" in headers ==>
              var level, next := RetryLevel(RetryCount(headers)), NextHeaders(headers)["x-retry-count"];
              match headers["x-retry-count"]
              case IntValue(n) =>
                && next == IntValue(n + 1) && (level.Some? <==> n in {0, 1, 2})
                && (n == 0 ==> level == Some(After10s)) && (n == 1 ==> level == Some(After60s))
                && (n == 2 ==> level == Some(After300s))
              case BoolValue(b) =>
                if b then level == Some(After60s) && next == IntValue(2) else level == Some(After10s) && next == IntValue(1)
              case OtherValue(_) => level == Some(After10s) && next == IntValue(1)
    ensures RetryLevel(RetryCount(headers)).None? <==> OffLadder(headers)
    ensures forall key :: key != "x-retry-count" ==>
              (key in NextHeaders(headers) <==> key in headers) &&
              (key in headers ==> NextHeaders(headers)[key] == headers[key])
    ensures Ttl(After10s) == 10_000 && Ttl(After60s) == 60_000 && Ttl(After300s) == 300_000
  {
  }

  /** Milliseconds spent in retry queues while the count goes from `first` to `last`. */
  function WaitBetween(first: int, last: int): nat
    decreases last - first
  {
    if first >= last then 0
    else (if RetryLevel(last - 1).Some? then Ttl(RetryLevel(last - 1).value) else 0) + WaitBetween(first, last - 1)
  }

  /** Wherever the count starts, the ladder costs at most 370 seconds. */
  lemma LadderWaitsAtMost(first: int, last: int)
    requires 0 <= first <= last <= MAX_RETRIES
    ensures WaitBetween(first, last) <= 370_000
    ensures first == 0 && last == MAX_RETRIES ==> WaitBetween(first, last) == 370_000
  {
  }
}
