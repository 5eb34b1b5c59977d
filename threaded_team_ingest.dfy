/**
 * `scripts/bronze/threaded_team_ingest.py`: `ThreadedTeamIngester` fetches
 * team ids chunk by chunk through a sliding-window rate limiter and upserts
 * each chunk's teams in one transaction. The worker threads are taken to
 * run one after another in submission order. Times are in milliseconds.
 */
module ThreadedTeamIngest {
  import opened Wrappers
  import opened Json
  import opened Http
  import opened Tables
  import opened PyText
  import opened Partition
  import opened TeamFetch

  /** `wait_time = 61 - (current_time - oldest_request)`. */
  const WaitBaseMs: int := 61000

  /** `min(self.request_times)`. */
  function Oldest(ts: seq<int>): (m: int)
    requires ts != []
    ensures m in ts && forall t :: t in ts ==> m <= t
  {
    if |ts| == 1 then ts[0]
    else
      var m := Oldest(ts[1..]);
      assert forall t :: t in ts ==> t == ts[0] || t in ts[1..];
      if ts[0] <= m then ts[0] else m
  }

  /** The result of one `check_rate_limit` call: the new window, or the crash of `min([])`, and the time slept. */
  datatype Check = Check(times: seq<int>, crashed: bool, slept: int)

  /**
   * `check_rate_limit` as a function of the stored window `ts`, the limit,
   * the clock `now` on entry and the clock `later` read again after the
   * sleep. With a limit of 0 or less and an empty window, `min` of an empty
   * list raises.
   */
  function RateLimitStep(ts: seq<int>, limit: int, now: int, later: int): Check
  {
    var w := Prune(ts, now);
    if |w| >= limit then
      if w == [] then Check(w, true, 0)
      else
        var wait := WaitBaseMs - (now - Oldest(w));
        if wait > 0 then Check(Prune(w, later) + [later], false, wait)
        else Check(w + [now], false, 0)
    else Check(w + [now], false, 0)
  }

  /** The clock `check_rate_limit` records: the one read after the sleep, if it slept. */
  function RecordedTime(c: Check, now: int, later: int): int
  {
    if c.slept > 0 then later else now
  }

  /**
   * After a call, the window ends with the recorded time and holds, before
   * it, only timestamps of the old window less than 60 s older than that time.
   */
  lemma WindowAfterStep(ts: seq<int>, limit: int, now: int, later: int)
    ensures var c := RateLimitStep(ts, limit, now, later);
            !c.crashed ==>
              var clock := RecordedTime(c, now, later);
              c.times != [] && c.times[|c.times| - 1] == clock &&
              forall k :: 0 <= k < |c.times| - 1 ==> clock - c.times[k] < WindowMs && c.times[k] in ts
  {
  }

  /** A full window always makes the caller sleep, by more than a second: the oldest entry is younger than 60 s. */
  lemma FullWindowWaits(ts: seq<int>, limit: int, now: int, later: int)
    requires limit >= 1 && |Prune(ts, now)| >= limit
    ensures var c := RateLimitStep(ts, limit, now, later); !c.crashed && c.slept > 1000
  {
    var w := Prune(ts, now);
    assert Oldest(w) in w;
  }

  /** The call raises exactly when the limit is not positive and no request is younger than 60 s. */
  lemma CrashCondition(ts: seq<int>, limit: int, now: int, later: int)
    ensures RateLimitStep(ts, limit, now, later).crashed <==> limit <= 0 && Prune(ts, now) == []
  {
  }

  /**
   * If the clock advances by at least the wait while sleeping, a window of at
   * most `limit` entries still holds at most `limit` entries after the call.
   */
  lemma WindowBound(ts: seq<int>, limit: int, now: int, later: int)
    requires limit >= 1 && |ts| <= limit
    requires later >= now + RateLimitStep(ts, limit, now, later).slept
    ensures |RateLimitStep(ts, limit, now, later).times| <= limit
  {
    var w := Prune(ts, now);
    if |w| >= limit {
      var o := Oldest(w);
      assert o in w;
      PruneDrops(w, later, o);
    }
  }

  /** A row of `raw_teams` as this script writes it; `source_hash` is the conflict key. */
  datatype TeamRow = TeamRow(payload: Json, source: string, sourceHash: string)

  type TeamTable = Serial<string, TeamRow>

  function TeamSource(id: int): string
  {
    "teams_api_" + IntToString(id)
  }

  /** `f"team_{team_id}"`: not a hash of the payload but a fixed key per team. */
  function TeamHash(id: int): string
  {
    "team_" + IntToString(id)
  }

  /** Distinct teams get distinct keys, so each team id has one row. */
  lemma TeamHashInjective(a: int, b: int)
    requires TeamHash(a) == TeamHash(b)
    ensures a == b
  {
    var p := "team_";
    assert TeamHash(a)[|p|..] == IntToString(a);
    assert TeamHash(b)[|p|..] == IntToString(b);
    ParseIntToString(a);
    ParseIntToString(b);
  }

  /** `ON CONFLICT (source_hash) DO UPDATE SET payload = EXCLUDED.payload, ingested_at = …`: the source is kept. */
  function UpdatePayload(stored: TeamRow, incoming: TeamRow): TeamRow
  {
    stored.(payload := incoming.payload)
  }

  /** The rows of `executemany` applied one after another. */
  function UpsertAll(t: TeamTable, batch: seq<(int, Json)>): (r: TeamTable)
    requires t.Valid()
    ensures r.Valid()
  {
    if batch == [] then t
    else
      var (id, data) := batch[|batch| - 1];
      Upsert(UpsertAll(t, batch[..|batch| - 1]), TeamHash(id), TeamRow(data, TeamSource(id), TeamHash(id)), UpdatePayload).1
  }

  /** After the batch every team in it has its row, and at most one row per team was added. */
  lemma {:induction false} UpsertAllHolds(t: TeamTable, batch: seq<(int, Json)>)
    requires t.Valid()
    ensures forall p :: p in batch ==> TeamHash(p.0) in UpsertAll(t, batch).index
    ensures forall k :: k in t.index ==> k in UpsertAll(t, batch).index
    ensures UpsertAll(t, batch).RowCount() <= t.RowCount() + |batch|
  {
    if batch != [] {
      var init := batch[..|batch| - 1];
      UpsertAllHolds(t, init);
      var t1, last := UpsertAll(t, init), batch[|batch| - 1];
      var r := Upsert(t1, TeamHash(last.0), TeamRow(last.1, TeamSource(last.0), TeamHash(last.0)), UpdatePayload);
      assert UpsertAll(t, batch) == r.1;
      assert forall k :: k in t1.index ==> k in r.1.index;
      forall p | p in batch ensures TeamHash(p.0) in r.1.index {
        if p != last {
          assert p in init;
        }
      }
    }
  }

  /** Re-ingesting teams that already have rows adds no row: it is an update. */
  lemma {:induction false} ReingestAddsNoRow(t: TeamTable, batch: seq<(int, Json)>)
    requires t.Valid()
    requires forall p :: p in batch ==> TeamHash(p.0) in t.index
    ensures UpsertAll(t, batch).index == t.index
    ensures UpsertAll(t, batch).RowCount() == t.RowCount()
  {
    if batch != [] {
      var init := batch[..|batch| - 1];
      assert forall p :: p in init ==> p in batch;
      ReingestAddsNoRow(t, init);
      assert batch[|batch| - 1] in batch;
    }
  }

  /** Running the same batch twice adds no row the first run did not. */
  lemma SecondRunAddsNoRow(t: TeamTable, batch: seq<(int, Json)>)
    requires t.Valid()
    ensures UpsertAll(UpsertAll(t, batch), batch).index == UpsertAll(t, batch).index
  {
    UpsertAllHolds(t, batch);
    ReingestAddsNoRow(UpsertAll(t, batch), batch);
  }

  /** The totals `process_team_range` returns. */
  datatype Totals = Totals(processed: nat, successful: nat, notFound: nat, errors: nat)

  /**
   * The window and the worker results after fetching `ids` one after another
   * from the window `ts`: each fetch is one rate-limit check at the two clock
   * readings `clock(id)`, then, unless the check crashed, the classified
   * response.
   */
  function FetchRun(ts: seq<int>, limit: int, ids: seq<int>, clock: int -> (int, int),
                    answer: int -> Response, message: int -> string): (r: (seq<int>, seq<Task>))
    ensures |r.1| == |ids|
  {
    if ids == [] then (ts, [])
    else
      var prev := FetchRun(ts, limit, ids[..|ids| - 1], clock, answer, message);
      var id := ids[|ids| - 1];
      var c := RateLimitStep(prev.0, limit, clock(id).0, clock(id).1);
      (c.times, prev.1 + [if c.crashed then Raised else Finished(Classify(id, answer(id), message(id)))])
  }

  /** With a positive limit no check crashes: the k-th result is the classified response to the k-th id. */
  lemma {:induction false} FetchRunResults(ts: seq<int>, limit: int, ids: seq<int>, clock: int -> (int, int),
                                           answer: int -> Response, message: int -> string)
    requires limit >= 1
    ensures var rs := FetchRun(ts, limit, ids, clock, answer, message).1;
            forall k :: 0 <= k < |ids| ==> rs[k] == Finished(Classify(ids[k], answer(ids[k]), message(ids[k])))
  {
    if ids != [] {
      var init := ids[..|ids| - 1];
      var id := ids[|ids| - 1];
      FetchRunResults(ts, limit, init, clock, answer, message);
      var prev := FetchRun(ts, limit, init, clock, answer, message);
      CrashCondition(prev.0, limit, clock(id).0, clock(id).1);
      var rs := FetchRun(ts, limit, ids, clock, answer, message).1;
      forall k | 0 <= k < |ids|
        ensures rs[k] == Finished(Classify(ids[k], answer(ids[k]), message(ids[k])))
      {
        if k < |init| {
          assert rs[k] == prev.1[k] && ids[k] == init[k];
        }
      }
    }
  }

  /** Where a run of chunks leaves the window, the table and the count of inserted teams. */
  datatype Progress = Progress(times: seq<int>, table: TeamTable, inserted: nat)

  /**
   * One chunk of `process_team_range` from the window `ts` and the table
   * `t`: the window after its fetches, the table after its batch insert
   * (the same table when nothing succeeded or the insert raised) and the
   * count the insert reports.
   */
  function ChunkRun(ts: seq<int>, limit: int, t: TeamTable, ids: seq<int>, clock: int -> (int, int),
                    answer: int -> Response, message: int -> string, raises: bool): (r: Progress)
    requires t.Valid()
    ensures r.table.Valid()
  {
    var run := FetchRun(ts, limit, ids, clock, answer, message);
    var succ := Successes(run.1);
    if succ == [] || raises then Progress(run.0, t, 0) else Progress(run.0, UpsertAll(t, succ), |succ|)
  }

  /**
   * With a positive limit and an insert that does not raise, every id of the
   * chunk answered by a non-empty dict has its row afterwards, and no row
   * is lost.
   */
  lemma ChunkStores(ts: seq<int>, limit: int, t: TeamTable, ids: seq<int>, clock: int -> (int, int),
                    answer: int -> Response, message: int -> string)
    requires limit >= 1 && t.Valid()
    ensures var t' := ChunkRun(ts, limit, t, ids, clock, answer, message, false).table;
            (forall k :: k in t.index ==> k in t'.index) &&
            forall k :: 0 <= k < |ids| && IsSuccess(Finished(Classify(ids[k], answer(ids[k]), message(ids[k])))) ==>
              TeamHash(ids[k]) in t'.index
  {
    var rs := FetchRun(ts, limit, ids, clock, answer, message).1;
    var succ := Successes(rs);
    var t' := ChunkRun(ts, limit, t, ids, clock, answer, message, false).table;
    assert t' == if succ == [] then t else UpsertAll(t, succ);
    UpsertAllHolds(t, succ);
    forall k | 0 <= k < |ids| && IsSuccess(Finished(Classify(ids[k], answer(ids[k]), message(ids[k]))))
      ensures TeamHash(ids[k]) in t'.index
    {
      FetchRunResults(ts, limit, ids, clock, answer, message);
      assert rs[k] == Finished(Classify(ids[k], answer(ids[k]), message(ids[k])));
      assert rs[k].fetch.id == ids[k];
      ResultsAreSuccesses(rs, k);
      var pair := (rs[k].fetch.id, rs[k].fetch.data);
      assert pair in succ && succ != [];
      assert t' == UpsertAll(t, succ);
      assert TeamHash(pair.0) in t'.index;
    }
  }

  /**
   * The chunks of `process_team_range` run in order from the window `ts`
   * and the table `t`; `raises(c)` says whether the insert of the chunk
   * numbered `c` (from 0) raises. The window, the table and the successful
   * total.
   */
  function RangeRun(ts: seq<int>, limit: int, t: TeamTable, chunks: seq<seq<int>>, clock: int -> (int, int),
                    answer: int -> Response, message: int -> string, raises: int -> bool): (r: Progress)
    requires t.Valid()
    ensures r.table.Valid()
  {
    if chunks == [] then Progress(ts, t, 0)
    else
      var prev := RangeRun(ts, limit, t, chunks[..|chunks| - 1], clock, answer, message, raises);
      var ids := chunks[|chunks| - 1];
      var step := ChunkRun(prev.times, limit, prev.table, ids, clock, answer, message, raises(|chunks| - 1));
      step.(inserted := prev.inserted + step.inserted)
  }

  /** A run of chunks never loses a row: upserts only add or update. */
  lemma {:induction false} RangeRunKeepsRows(ts: seq<int>, limit: int, t: TeamTable, chunks: seq<seq<int>>, clock: int -> (int, int),
                                             answer: int -> Response, message: int -> string, raises: int -> bool)
    requires t.Valid()
    ensures forall k :: k in t.index ==> k in RangeRun(ts, limit, t, chunks, clock, answer, message, raises).table.index
  {
    if chunks != [] {
      var init := chunks[..|chunks| - 1];
      RangeRunKeepsRows(ts, limit, t, init, clock, answer, message, raises);
      var prev := RangeRun(ts, limit, t, init, clock, answer, message, raises);
      var run := FetchRun(prev.times, limit, chunks[|chunks| - 1], clock, answer, message);
      UpsertAllHolds(prev.table, Successes(run.1));
    }
  }

  /** Running one more chunk extends the run by that chunk's step. */
  lemma RangeRunSnoc(ts: seq<int>, limit: int, t: TeamTable, chunks: seq<seq<int>>, c: nat, clock: int -> (int, int),
                     answer: int -> Response, message: int -> string, raises: int -> bool)
    requires t.Valid() && c < |chunks|
    ensures var prev := RangeRun(ts, limit, t, chunks[..c], clock, answer, message, raises);
            var step := ChunkRun(prev.times, limit, prev.table, chunks[c], clock, answer, message, raises(c));
            RangeRun(ts, limit, t, chunks[..c + 1], clock, answer, message, raises) == step.(inserted := prev.inserted + step.inserted)
  {
    var cs := chunks[..c + 1];
    assert cs != [] && cs[..|cs| - 1] == chunks[..c] && cs[|cs| - 1] == chunks[c];
  }

  class ThreadedTeamIngester {
    var maxWorkers: int
    var rateLimitPerMinute: int
    /** `self.request_times`, oldest first. */
    var requestTimes: seq<int>

    /** The window starts empty, so the ingester is valid exactly when the limit is positive. */
    constructor(maxWorkers: int, rateLimitPerMinute: int)
      ensures this.maxWorkers == maxWorkers && this.rateLimitPerMinute == rateLimitPerMinute
      ensures requestTimes == []
      ensures Valid() <==> rateLimitPerMinute >= 1
    {
      this.maxWorkers := maxWorkers;
      this.rateLimitPerMinute := rateLimitPerMinute;
      requestTimes := [];
    }

    /** The window never holds more requests than the limit allows. */
    predicate Valid()
      reads this
    {
      rateLimitPerMinute >= 1 && |requestTimes| <= rateLimitPerMinute
    }

    /**
     * `check_rate_limit()`, with `now` the clock on entry and `later` the
     * clock read after the sleep. A call that keeps to the clock leaves the
     * ingester valid.
     */
    method CheckRateLimit(now: int, later: int) returns (crashed: bool, slept: int)
      modifies this
      ensures maxWorkers == old(maxWorkers) && rateLimitPerMinute == old(rateLimitPerMinute)
      ensures Check(requestTimes, crashed, slept) == RateLimitStep(old(requestTimes), rateLimitPerMinute, now, later)
      ensures old(Valid()) && later >= now + slept ==> Valid()
    {
      ghost var before := requestTimes;
      requestTimes := Prune(requestTimes, now);
      var current := now;
      crashed, slept := false, 0;
      if |requestTimes| >= rateLimitPerMinute {
        if requestTimes == [] {
          crashed := true;
          return;
        }
        var oldest := Oldest(requestTimes);
        var wait := WaitBaseMs - (current - oldest);
        if wait > 0 {
          slept := wait;
          current := later;
          requestTimes := Prune(requestTimes, current);
        }
      }
      requestTimes := requestTimes + [current];
      if rateLimitPerMinute >= 1 && |before| <= rateLimitPerMinute && later >= now + slept {
        WindowBound(before, rateLimitPerMinute, now, later);
      }
    }

    /**
     * `fetch_team(team_id)`: the rate-limit check, then one request, answered
     * by `r`; `message` is the text of any exception. The check sits outside
     * the request's `try`, so its crash escapes as the worker's exception.
     */
    method FetchTeam(id: int, now: int, later: int, r: Response, message: string) returns (task: Task)
      modifies this
      ensures maxWorkers == old(maxWorkers) && rateLimitPerMinute == old(rateLimitPerMinute)
      ensures var c := RateLimitStep(old(requestTimes), rateLimitPerMinute, now, later);
              requestTimes == c.times && task == (if c.crashed then Raised else Finished(Classify(id, r, message)))
    {
      var crashed, slept := CheckRateLimit(now, later);
      if crashed {
        return Raised;
      }
      task := Finished(Classify(id, r, message));
    }

    /**
     * `insert_teams_batch(teams_data)`: one transaction of upserts keyed on
     * `team_{id}`; it reports `len(teams_data)`, or 0 for an empty batch or
     * when the transaction raises and is rolled back.
     */
    method InsertTeamsBatch(t: TeamTable, batch: seq<(int, Json)>, raises: bool) returns (inserted: nat, t': TeamTable)
      requires t.Valid()
      ensures t'.Valid()
      ensures batch == [] || raises ==> inserted == 0 && t' == t
      ensures batch != [] && !raises ==> inserted == |batch| && t' == UpsertAll(t, batch)
    {
      if batch == [] {
        return 0, t;
      }
      if raises {
        return 0, t;
      }
      t' := t;
      var i := 0;
      while i < |batch|
        invariant i <= |batch|
        invariant t'.Valid() && t' == UpsertAll(t, batch[..i])
      {
        assert batch[..i + 1][..i] == batch[..i];
        var (id, data) := batch[i];
        var (_, t1) := Upsert(t', TeamHash(id), TeamRow(data, TeamSource(id), TeamHash(id)), UpdatePayload);
        t' := t1;
        i := i + 1;
      }
      assert batch[..i] == batch;
      inserted := |batch|;
    }

    /**
     * One chunk of `process_team_range`: fetch every id, tally the results
     * and insert the successes, if there are any, in one batch.
     */
    method ProcessChunk(ids: seq<int>, t: TeamTable, clock: int -> (int, int), answer: int -> Response,
                        message: int -> string, raises: bool)
      returns (inserted: nat, successes: nat, notFound: nat, errors: nat, t': TeamTable)
      requires t.Valid()
      modifies this
      ensures maxWorkers == old(maxWorkers) && rateLimitPerMinute == old(rateLimitPerMinute)
      ensures successes + notFound + errors == |ids|
      ensures inserted <= successes
      ensures t'.Valid() && forall k :: k in t.index ==> k in t'.index
      ensures Progress(requestTimes, t', inserted) == ChunkRun(old(requestTimes), rateLimitPerMinute, t, ids, clock, answer, message, raises)
      ensures var rs := FetchRun(old(requestTimes), rateLimitPerMinute, ids, clock, answer, message).1;
              successes == |Successes(rs)| && notFound == NotFoundCount(rs)
    {
      ghost var ts0 := requestTimes;
      var results: seq<Task> := [];
      var j := 0;
      while j < |ids|
        invariant j <= |ids| && |results| == j
        invariant maxWorkers == old(maxWorkers) && rateLimitPerMinute == old(rateLimitPerMinute)
        invariant (requestTimes, results) == FetchRun(ts0, rateLimitPerMinute, ids[..j], clock, answer, message)
      {
        assert ids[..j + 1][..j] == ids[..j] && ids[..j + 1][j] == ids[j];
        var (now, later) := clock(ids[j]);
        var task := FetchTeam(ids[j], now, later, answer(ids[j]), message(ids[j]));
        results := results + [task];
        j := j + 1;
      }
      assert ids[..j] == ids;
      var succ;
      succ, notFound, errors := TallyResults(results);
      successes := |succ|;
      inserted, t' := 0, t;
      if succ != [] {
        inserted, t' := InsertTeamsBatch(t, succ, raises);
        UpsertAllHolds(t, succ);
      }
    }

    /** One turn of the chunk loop of `process_team_range`: chunk `c` run and added to the totals. */
    method RunChunk(ghost ts0: seq<int>, ghost t0: TeamTable, chunks: seq<seq<int>>, c: nat, totals: Totals, successes: nat, t: TeamTable,
                    clock: int -> (int, int), answer: int -> Response, message: int -> string, raises: int -> bool)
      returns (totals': Totals, successes': nat, t': TeamTable)
      requires c < |chunks| && t0.Valid()
      requires totals.processed == SumSizes(chunks[..c])
      requires successes + totals.notFound + totals.errors == totals.processed && totals.successful <= successes
      requires Progress(requestTimes, t, totals.successful) == RangeRun(ts0, rateLimitPerMinute, t0, chunks[..c], clock, answer, message, raises)
      modifies this
      ensures maxWorkers == old(maxWorkers) && rateLimitPerMinute == old(rateLimitPerMinute)
      ensures totals'.processed == SumSizes(chunks[..c + 1])
      ensures successes' + totals'.notFound + totals'.errors == totals'.processed && totals'.successful <= successes'
      ensures Progress(requestTimes, t', totals'.successful) == RangeRun(ts0, rateLimitPerMinute, t0, chunks[..c + 1], clock, answer, message, raises)
    {
      var ids := chunks[c];
      var inserted, succ, nf, err, t1 := ProcessChunk(ids, t, clock, answer, message, raises(c));
      RangeRunSnoc(ts0, rateLimitPerMinute, t0, chunks, c, clock, answer, message, raises);
      SumSizesSnoc(chunks, c);
      totals' := Totals(totals.processed + |ids|, totals.successful + inserted, totals.notFound + nf, totals.errors + err);
      t' := t1;
      successes' := successes + succ;
    }

    /**
     * `process_team_range(start_id, end_id, batch_size)`. For team `id`,
     * `clock(id)` are the two clock readings of its rate-limit check,
     * `answer(id)` its response and `message(id)` any exception text;
     * `raises(c)` says whether the insert of chunk `c` (from 0) fails. Every id is counted once, as a success, not found or an error,
     * and only successes are inserted.
     */
    method ProcessTeamRange(start: int, end: int, batchSize: int, t0: TeamTable,
                            clock: int -> (int, int), answer: int -> Response, message: int -> string, raises: int -> bool)
      returns (totals: Totals, successes: nat, t: TeamTable, summaryRaises: bool)
      requires batchSize >= 1 && t0.Valid()
      modifies this
      ensures maxWorkers == old(maxWorkers) && rateLimitPerMinute == old(rateLimitPerMinute)
      ensures totals.processed == if start <= end then end - start + 1 else 0
      ensures successes + totals.notFound + totals.errors == totals.processed
      ensures totals.successful <= successes
      ensures t.Valid() && forall k :: k in t0.index ==> k in t.index
      ensures Progress(requestTimes, t, totals.successful) ==
              RangeRun(old(requestTimes), rateLimitPerMinute, t0, IdChunks(start, end, batchSize), clock, answer, message, raises)
      ensures summaryRaises <==> start > end
    {
      var chunks := IdChunks(start, end, batchSize);
      IdChunksPartition(start, end, batchSize);
      ghost var ts0 := requestTimes;
      totals := Totals(0, 0, 0, 0);
      successes := 0;
      t := t0;
      var c := 0;
      while c < |chunks|
        invariant c <= |chunks|
        invariant maxWorkers == old(maxWorkers) && rateLimitPerMinute == old(rateLimitPerMinute)
        invariant totals.processed == SumSizes(chunks[..c])
        invariant successes + totals.notFound + totals.errors == totals.processed
        invariant totals.successful <= successes
        invariant Progress(requestTimes, t, totals.successful) == RangeRun(ts0, rateLimitPerMinute, t0, chunks[..c], clock, answer, message, raises)
      {
        totals, successes, t := RunChunk(ts0, t0, chunks, c, totals, successes, t, clock, answer, message, raises);
        c := c + 1;
      }
      assert chunks[..c] == chunks;
      assert Progress(requestTimes, t, totals.successful) == RangeRun(ts0, rateLimitPerMinute, t0, chunks, clock, answer, message, raises);
      SumSizesIsConcatLength(chunks);
      assert t.Valid() && forall k :: k in t0.index ==> k in t.index by {
        RangeRunKeepsRows(ts0, rateLimitPerMinute, t0, chunks, clock, answer, message, raises);
      }
      // The closing log line divides by `total_processed`.
      summaryRaises := totals.processed == 0;
    }
  }
}
