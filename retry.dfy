/**
 * The fetch loop shared, line for line, by
 * `scripts/bronze/concurrent_scoreboard_ingest.py` (`fetch_scoreboard`) and
 * `scripts/bronze/concurrent_competition_ingest.py` (`fetch_competition_page`):
 * up to `MAX_RETRIES` GETs, a 200 or a 404 ends the loop, anything else is
 * retried after an exponentially growing pause. Times are in milliseconds.
 */
module FixedRetry {
  import opened Json
  import opened Http

  const MaxRetries: nat := 3
  /** `RATE_LIMIT_DELAY = 3.0` seconds. */
  const RateLimitDelayMs: nat := 3000
  /** `BACKOFF_FACTOR = 2.0`. */
  const BackoffFactor: nat := 2

  function Pow(b: nat, k: nat): (p: nat)
    ensures b >= 1 ==> p >= 1
  {
    if k == 0 then 1 else b * Pow(b, k - 1)
  }

  /** `RATE_LIMIT_DELAY * (BACKOFF_FACTOR ** k)`. */
  function BackoffMs(k: nat): nat
  {
    RateLimitDelayMs * Pow(BackoffFactor, k)
  }

  /** The pauses taken after the first `n` failed attempts. */
  function Backoffs(n: nat): (ws: seq<nat>)
    ensures |ws| == n
    ensures forall k :: 0 <= k < n ==> ws[k] == BackoffMs(k)
  {
    if n == 0 then [] else Backoffs(n - 1) + [BackoffMs(n - 1)]
  }

  /** What the fetch hands back: the data (None is `JNull`), or an exception that escapes it. */
  datatype Fetched = Returned(data: Json) | Raised

  /**
   * A response that ends the loop: a 200 whose body parses, or a 404. A 200
   * whose body does not parse makes `response.json()` raise a
   * `requests.exceptions.JSONDecodeError`, which is a `RequestException` and
   * so is retried like a transport error.
   */
  predicate Decisive(r: Response)
  {
    r.Reply? && (r.status == 404 || (r.status == 200 && r.body.Parsed?))
  }

  /**
   * The result of a decisive response. `accepts` says whether the logging
   * line after `response.json()` goes through for that value (it calls
   * `.get` and `len` on it, which raise for some values).
   */
  function Verdict(r: Response, accepts: Json -> bool): (f: Fetched)
    requires Decisive(r)
    ensures r.status == 404 ==> f == Returned(JNull)
    ensures r.status == 200 ==> f == (if accepts(r.body.json) then Returned(r.body.json) else Raised)
  {
    if r.status == 200 then (if accepts(r.body.json) then Returned(r.body.json) else Raised)
    else Returned(JNull)
  }

  function Min(a: nat, b: nat): nat
  {
    if a < b then a else b
  }

  /** What the loop hands back when it reaches attempt `k`. */
  function Outcome(url: string, net: Network, accepts: Json -> bool, k: nat): Fetched
    decreases MaxRetries - k
  {
    if k >= MaxRetries then Returned(JNull)
    else if Decisive(net(url, k)) then Verdict(net(url, k), accepts)
    else Outcome(url, net, accepts, k + 1)
  }

  /** How many requests the loop sends once it reaches attempt `k`. */
  function Attempts(url: string, net: Network, k: nat): nat
    decreases MaxRetries - k
  {
    if k >= MaxRetries - 1 || Decisive(net(url, k)) then k + 1
    else Attempts(url, net, k + 1)
  }

  /**
   * The loop for one URL; attempt `k` is answered by `net(url, k)`. It sends
   * at most `MaxRetries` requests, stops at the first decisive answer, and
   * otherwise gives up with None; `waits` are the `time.sleep` pauses, one
   * after every failed attempt except the last.
   */
  method Fetch(url: string, net: Network, accepts: Json -> bool) returns (result: Fetched, requests: nat, waits: seq<nat>)
    ensures 1 <= requests <= MaxRetries
    ensures forall k :: 0 <= k < requests - 1 ==> !Decisive(net(url, k))
    ensures Decisive(net(url, requests - 1)) ==> result == Verdict(net(url, requests - 1), accepts)
    ensures !Decisive(net(url, requests - 1)) ==> requests == MaxRetries && result == Returned(JNull)
    ensures waits == Backoffs(requests - 1)
    ensures result == Outcome(url, net, accepts, 0) && requests == Attempts(url, net, 0)
  {
    var attempt := 0;
    waits := [];
    while attempt < MaxRetries
      invariant attempt <= MaxRetries
      invariant forall k :: 0 <= k < attempt ==> !Decisive(net(url, k))
      invariant waits == Backoffs(Min(attempt, MaxRetries - 1))
      invariant Outcome(url, net, accepts, 0) == Outcome(url, net, accepts, attempt)
      invariant attempt < MaxRetries ==> Attempts(url, net, 0) == Attempts(url, net, attempt)
    {
      var r := net(url, attempt);
      if r.Reply? && r.status == 200 && r.body.Parsed? {
        requests := attempt + 1;
        if accepts(r.body.json) {
          return Returned(r.body.json), requests, waits;
        } else {
          return Raised, requests, waits;
        }
      } else if r.Reply? && r.status == 404 {
        return Returned(JNull), attempt + 1, waits;
      }
      if attempt < MaxRetries - 1 {
        waits := waits + [BackoffMs(attempt)];
      }
      attempt := attempt + 1;
    }
    return Returned(JNull), MaxRetries, waits;
  }

  /** A 200 on the first attempt is returned at once, with no pause. */
  lemma FirstAttemptOk(url: string, net: Network, accepts: Json -> bool, j: Json)
    requires net(url, 0) == Reply(200, Parsed(j))
    ensures Decisive(net(url, 0)) && Verdict(net(url, 0), accepts) == (if accepts(j) then Returned(j) else Raised)
    ensures Backoffs(0) == []
  {
  }

  /** Giving up costs two pauses, 3 s and 6 s. */
  lemma GiveUpPauses()
    ensures Backoffs(MaxRetries - 1) == [3000, 6000]
  {
    assert Pow(2, 1) == 2;
  }
}
