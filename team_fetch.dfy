/**
 * What `scripts/bronze/threaded_team_ingest.py` and
 * `scripts/bronze/concurrent_team_ingest.py` share: the classification of
 * one team request into `(team_id, data, error)`, the per-chunk tally of
 * those results, and the split of an id range into chunks.
 */
module TeamFetch {
  import opened Wrappers
  import opened Json
  import opened Http
  import opened PyText
  import opened Partition

  function TeamUrl(id: int): string
  {
    "https://virtual.sssfonline.com/api/teams/" + IntToString(id)
  }

  /** The error strings a fetch reports; `Failed` carries `str(e)` of the exception. */
  datatype TeamError = NotFound | RateLimited | HttpStatus(code: int) | TimedOut | Failed(message: string)

  /** The string the scripts actually return. */
  function ErrorText(e: TeamError): string
  {
    match e
    case NotFound => "NOT_FOUND"
    case RateLimited => "RATE_LIMITED"
    case HttpStatus(code) => "HTTP_" + IntToString(code)
    case TimedOut => "TIMEOUT"
    case Failed(message) => "ERROR_" + message
  }

  /** The test `error == "NOT_FOUND"` picks out a 404 and nothing else, whatever an exception's text is. */
  lemma NotFoundText(e: TeamError)
    ensures ErrorText(e) == "NOT_FOUND" <==> e == NotFound
  {
    if e.HttpStatus? {
      assert ErrorText(e)[0] == 'H';
    } else if e.Failed? {
      assert ErrorText(e)[0] == 'E';
    }
  }

  /** The tuple `(team_id, data, error)`; None is `JNull` / `None`. */
  datatype Fetch = Fetch(id: int, data: Json, error: Option<TeamError>)

  /**
   * One request. A 200 returns the parsed body, but the debug line then
   * calls `data.get`, so a body that is not a dict raises and, like a body
   * that does not parse, is reported as `ERROR_…` with the exception text
   * `message`.
   */
  function Classify(id: int, r: Response, message: string): Fetch
  {
    match r
    case Reply(status, body) =>
      if status == 200 then
        if body.Parsed? && body.json.JObj? then Fetch(id, body.json, None)
        else Fetch(id, JNull, Some(Failed(message)))
      else if status == 404 then Fetch(id, JNull, Some(NotFound))
      else if status == 429 then Fetch(id, JNull, Some(RateLimited))
      else Fetch(id, JNull, Some(HttpStatus(status)))
    case Timeout => Fetch(id, JNull, Some(TimedOut))
    case RequestError => Fetch(id, JNull, Some(Failed(message)))
  }

  /** What a worker hands back: its tuple, or an exception raised before the request's own `try`. */
  datatype Task = Finished(fetch: Fetch) | Raised

  /** `error is None and team_data`. */
  predicate IsSuccess(t: Task)
  {
    t.Finished? && t.fetch.error.None? && Truthy(t.fetch.data)
  }

  /** `elif error == "NOT_FOUND"`. */
  predicate IsNotFound(t: Task)
  {
    t.Finished? && !IsSuccess(t) && t.fetch.error.Some? && ErrorText(t.fetch.error.value) == "NOT_FOUND"
  }

  /** A classified request succeeds exactly on a 200 carrying a non-empty dict. */
  lemma ClassifySuccess(id: int, r: Response, message: string)
    ensures IsSuccess(Finished(Classify(id, r, message))) <==>
            r.Reply? && r.status == 200 && r.body.Parsed? && r.body.json.JObj? && r.body.json.fields != []
  {
  }

  /** A classified request counts as not found exactly on a 404. */
  lemma ClassifyNotFound(id: int, r: Response, message: string)
    ensures IsNotFound(Finished(Classify(id, r, message))) <==> r.Reply? && r.status == 404
  {
    var f := Classify(id, r, message);
    if f.error.Some? {
      NotFoundText(f.error.value);
    }
  }

  /** The `(team_id, team_data)` pairs a chunk collects, in result order. */
  function Successes(rs: seq<Task>): (ss: seq<(int, Json)>)
    ensures |ss| <= |rs|
  {
    if rs == [] then []
    else
      var last := rs[|rs| - 1];
      Successes(rs[..|rs| - 1]) + (if IsSuccess(last) then [(last.fetch.id, last.fetch.data)] else [])
  }

  function NotFoundCount(rs: seq<Task>): (n: nat)
    ensures n + |Successes(rs)| <= |rs|
  {
    if rs == [] then 0
    else NotFoundCount(rs[..|rs| - 1]) + (if IsNotFound(rs[|rs| - 1]) then 1 else 0)
  }

  /** Every collected pair is a successful result: a non-empty body with no error. */
  lemma {:induction false} SuccessesAreResults(rs: seq<Task>)
    ensures forall p :: p in Successes(rs) ==> exists k :: 0 <= k < |rs| && IsSuccess(rs[k]) && p == (rs[k].fetch.id, rs[k].fetch.data)
  {
    if rs != [] {
      var init := rs[..|rs| - 1];
      SuccessesAreResults(init);
      forall p | p in Successes(rs)
        ensures exists k :: 0 <= k < |rs| && IsSuccess(rs[k]) && p == (rs[k].fetch.id, rs[k].fetch.data)
      {
        if p in Successes(init) {
          var k :| 0 <= k < |init| && IsSuccess(init[k]) && p == (init[k].fetch.id, init[k].fetch.data);
          assert rs[k] == init[k];
        } else {
          assert IsSuccess(rs[|rs| - 1]);
        }
      }
    }
  }

  /** Every successful result is collected: its pair is among the chunk's successes. */
  lemma {:induction false} ResultsAreSuccesses(rs: seq<Task>, k: nat)
    requires k < |rs| && IsSuccess(rs[k])
    ensures (rs[k].fetch.id, rs[k].fetch.data) in Successes(rs)
  {
    var init := rs[..|rs| - 1];
    if k < |rs| - 1 {
      assert init[k] == rs[k];
      ResultsAreSuccesses(init, k);
    }
  }

  /**
   * The loop over a chunk's results. Every result is counted exactly once:
   * as a success, as not found, or as an error (an exception, a falsy body,
   * any other error string).
   */
  method TallyResults(rs: seq<Task>) returns (successes: seq<(int, Json)>, notFound: nat, errors: nat)
    ensures successes == Successes(rs)
    ensures notFound == NotFoundCount(rs)
    ensures |successes| + notFound + errors == |rs|
  {
    successes, notFound, errors := [], 0, 0;
    var i := 0;
    while i < |rs|
      invariant i <= |rs|
      invariant successes == Successes(rs[..i])
      invariant notFound == NotFoundCount(rs[..i])
      invariant |successes| + notFound + errors == i
    {
      assert rs[..i + 1][..i] == rs[..i];
      var r := rs[i];
      if r.Raised? {
        errors := errors + 1;
      } else if r.fetch.error.None? && Truthy(r.fetch.data) {
        successes := successes + [(r.fetch.id, r.fetch.data)];
      } else if r.fetch.error.Some? && ErrorText(r.fetch.error.value) == "NOT_FOUND" {
        notFound := notFound + 1;
      } else {
        errors := errors + 1;
      }
      i := i + 1;
    }
    assert rs[..i] == rs;
  }

  /** Requests younger than this stay in the window: `current_time - t < 60`. */
  const WindowMs: int := 60000
  /** `[t for t in request_times if current_time - t < 60]`, the sliding window both ingesters keep. */
  function Prune(ts: seq<int>, now: int): (r: seq<int>)
    ensures |r| <= |ts|
    ensures forall k :: 0 <= k < |r| ==> now - r[k] < WindowMs && r[k] in ts
    ensures forall t :: t in ts && now - t < WindowMs ==> t in r
  {
    if ts == [] then []
    else
      var init := Prune(ts[..|ts| - 1], now);
      var t := ts[|ts| - 1];
      assert forall x :: x in ts ==> x in ts[..|ts| - 1] || x == t;
      if now - t < WindowMs then init + [t] else init
  }

  /** Pruning at a time that a stored timestamp has outlived drops at least one entry. */
  lemma {:induction false} PruneDrops(ts: seq<int>, now: int, x: int)
    requires x in ts && now - x >= WindowMs
    ensures |Prune(ts, now)| < |ts|
  {
    var init := ts[..|ts| - 1];
    if ts[|ts| - 1] != x {
      assert x in init;
      PruneDrops(init, now, x);
    }
  }

  /** `[list(range(cs, min(cs + batch_size - 1, end) + 1)) for cs in range(start, end + 1, batch_size)]`. */
  function IdChunks(start: int, end: int, batchSize: nat): seq<seq<int>>
    requires batchSize > 0
    decreases end - start + 1
  {
    if start > end then []
    else [Range(start, if start + batchSize - 1 < end then start + batchSize - 1 else end)] + IdChunks(start + batchSize, end, batchSize)
  }

  /** The id chunks are the slices of `start..end`, so they cover it in ascending order with at most `batch_size` ids each. */
  lemma {:induction false} IdChunksAreSlices(start: int, end: int, batchSize: nat)
    requires batchSize > 0
    ensures IdChunks(start, end, batchSize) == Chunks(Range(start, end), batchSize)
    decreases end - start + 1
  {
    if start <= end {
      var s := Range(start, end);
      if end - start + 1 <= batchSize {
        assert IdChunks(start + batchSize, end, batchSize) == [];
      } else {
        IdChunksAreSlices(start + batchSize, end, batchSize);
        RangeSplit(start, start + batchSize - 1, end);
        var head, rest := Range(start, start + batchSize - 1), Range(start + batchSize, end);
        assert s == head + rest && |head| == batchSize;
        assert s[..batchSize] == head && s[batchSize..] == rest;
        assert Chunks(s, batchSize) == [head] + Chunks(rest, batchSize);
        assert IdChunks(start, end, batchSize) == [head] + IdChunks(start + batchSize, end, batchSize);
      }
    }
  }

  /** The chunks concatenate to `start..end`, each holding 1..`batch_size` ids. */
  lemma IdChunksPartition(start: int, end: int, batchSize: nat)
    requires batchSize > 0
    ensures Concat(IdChunks(start, end, batchSize)) == Range(start, end)
    ensures forall k :: 0 <= k < |IdChunks(start, end, batchSize)| ==> 0 < |IdChunks(start, end, batchSize)[k]| <= batchSize
  {
    IdChunksAreSlices(start, end, batchSize);
    ChunksCover(Range(start, end), batchSize);
  }

  /** The chunk sizes add up to the length of the range: `total_processed = end − start + 1`. */
  function SumSizes(cs: seq<seq<int>>): nat
  {
    if cs == [] then 0 else |cs[0]| + SumSizes(cs[1..])
  }

  lemma {:induction false} SumSizesIsConcatLength(cs: seq<seq<int>>)
    ensures SumSizes(cs) == |Concat(cs)|
  {
    if cs != [] {
      SumSizesIsConcatLength(cs[1..]);
    }
  }

  lemma {:induction false} SumSizesSnoc(cs: seq<seq<int>>, c: nat)
    requires c < |cs|
    ensures SumSizes(cs[..c + 1]) == SumSizes(cs[..c]) + |cs[c]|
  {
    if c == 0 {
      assert cs[..1][1..] == [];
    } else {
      assert cs[..c + 1][1..] == cs[1..][..c];
      assert cs[..c][1..] == cs[1..][..c - 1];
      SumSizesSnoc(cs[1..], c - 1);
    }
  }
}
