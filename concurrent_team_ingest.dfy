/**
 * `scripts/bronze/concurrent_team_ingest.py`: `ConcurrentTeamIngester`
 * fetches team ids chunk by chunk with `asyncio`, behind a concurrency
 * semaphore and a per-minute semaphore that a background task recreates
 * every 60 s, and upserts each chunk's teams on their id. The tasks of a
 * chunk are taken to run one after another in submission order. Times are
 * in milliseconds.
 */
module ConcurrentTeamIngest {
  import opened Json
  import opened Http
  import opened Tables
  import opened TeamFetch
  import opened Partition

  /** `max(0, rate_limit_per_minute - used_permits)`. */
  function RestoredPermits(limit: int, used: nat): (p: int)
    ensures p >= 0
    ensures limit >= 0 ==> p <= limit
    ensures used <= limit ==> p == limit - used
    ensures used >= limit ==> p == 0
  {
    if limit - used > 0 then limit - used else 0
  }

  /** The permits restored for a window never exceed what the limit leaves for the requests still in it. */
  lemma PermitsAndWindow(ts: seq<int>, limit: int, now: int)
    requires limit >= 0
    ensures var p := RestoredPermits(limit, |Prune(ts, now)|);
            0 <= p <= limit && p + |Prune(ts, now)| >= limit && (p > 0 ==> p + |Prune(ts, now)| == limit)
  {
  }

  /** A row of `raw_teams` as this script writes it: `(id, payload, ingested_at)`, keyed on `id`. */
  type TeamTable = Keyed<int, Json>

  /** `ON CONFLICT (id) DO UPDATE SET payload = EXCLUDED.payload, …`, applied pair by pair. */
  function UpsertAll(t: TeamTable, batch: seq<(int, Json)>): TeamTable
  {
    if batch == [] then t
    else
      var (id, data) := batch[|batch| - 1];
      KeyedUpsert(UpsertAll(t, batch[..|batch| - 1]), id, data, Overwrite)
  }

  /** The ids in a batch of `(team_id, team_data)` pairs. */
  predicate DistinctIds(batch: seq<(int, Json)>)
  {
    forall i, j :: 0 <= i < j < |batch| ==> batch[i].0 != batch[j].0
  }

  /** After a batch, exactly the stored ids and the batch's ids have a row (one per id). */
  lemma {:induction false} UpsertAllKeys(t: TeamTable, batch: seq<(int, Json)>)
    ensures forall k :: k in UpsertAll(t, batch).rows <==> k in t.rows || exists i :: 0 <= i < |batch| && batch[i].0 == k
  {
    if batch != [] {
      var n := |batch| - 1;
      var init := batch[..n];
      UpsertAllKeys(t, init);
      forall k
        ensures k in UpsertAll(t, batch).rows <==> k in t.rows || exists i :: 0 <= i < |batch| && batch[i].0 == k
      {
        if exists i :: 0 <= i < |batch| && batch[i].0 == k {
          var i :| 0 <= i < |batch| && batch[i].0 == k;
          if i < n {
            assert init[i].0 == k;
          }
        }
        if exists i :: 0 <= i < n && init[i].0 == k {
          var i :| 0 <= i < n && init[i].0 == k;
          assert batch[i].0 == k;
        }
      }
    }
  }

  /** After a batch of distinct teams, each batch team holds its new payload. */
  lemma {:induction false} UpsertAllNew(t: TeamTable, batch: seq<(int, Json)>)
    requires DistinctIds(batch)
    ensures forall i :: 0 <= i < |batch| ==> batch[i].0 in UpsertAll(t, batch).rows && UpsertAll(t, batch).rows[batch[i].0] == batch[i].1
  {
    if batch != [] {
      var n := |batch| - 1;
      var init := batch[..n];
      assert DistinctIds(init);
      UpsertAllNew(t, init);
      UpsertAllKeys(t, init);
      forall i | 0 <= i < |batch|
        ensures batch[i].0 in UpsertAll(t, batch).rows && UpsertAll(t, batch).rows[batch[i].0] == batch[i].1
      {
        if i < n {
          assert init[i] == batch[i];
          assert batch[i].0 != batch[n].0;
        }
      }
    }
  }

  /** Every stored team the batch does not name keeps its row. */
  lemma {:induction false} UpsertAllOld(t: TeamTable, batch: seq<(int, Json)>)
    ensures forall k :: k in t.rows && (forall i :: 0 <= i < |batch| ==> batch[i].0 != k) ==>
                          k in UpsertAll(t, batch).rows && UpsertAll(t, batch).rows[k] == t.rows[k]
  {
    if batch != [] {
      var n := |batch| - 1;
      var init := batch[..n];
      UpsertAllOld(t, init);
      UpsertAllKeys(t, init);
      forall k | k in t.rows && (forall i :: 0 <= i < |batch| ==> batch[i].0 != k)
        ensures k in UpsertAll(t, batch).rows && UpsertAll(t, batch).rows[k] == t.rows[k]
      {
        assert forall i :: 0 <= i < n ==> init[i].0 == batch[i].0;
        assert batch[n].0 != k;
      }
    }
  }

  /**
   * After a batch of distinct teams, exactly the stored ids and the batch's
   * ids have a row (one per id), each batch team holds its new payload and
   * every other row is unchanged.
   */
  lemma UpsertAllRows(t: TeamTable, batch: seq<(int, Json)>)
    requires DistinctIds(batch)
    ensures forall k :: k in UpsertAll(t, batch).rows <==> k in t.rows || exists i :: 0 <= i < |batch| && batch[i].0 == k
    ensures forall i :: 0 <= i < |batch| ==> UpsertAll(t, batch).rows[batch[i].0] == batch[i].1
    ensures forall k :: k in t.rows && (forall i :: 0 <= i < |batch| ==> batch[i].0 != k) ==> UpsertAll(t, batch).rows[k] == t.rows[k]
  {
    UpsertAllKeys(t, batch);
    UpsertAllNew(t, batch);
    UpsertAllOld(t, batch);
  }

  /** The totals `process_team_range` returns. */
  datatype Totals = Totals(processed: nat, successful: nat, notFound: nat, errors: nat)

  /** The clock each request of `ids` records, in submission order. */
  function Clocks(ids: seq<int>, now: int -> int): (ts: seq<int>)
    ensures |ts| == |ids| && forall k :: 0 <= k < |ids| ==> ts[k] == now(ids[k])
  {
    seq(|ids|, k requires 0 <= k < |ids| => now(ids[k]))
  }

  /** The clocks of one more chunk follow those of the chunks before it. */
  lemma ClocksSnoc(ts0: seq<int>, chunks: seq<seq<int>>, c: nat, now: int -> int)
    requires c < |chunks|
    ensures ts0 + Clocks(Concat(chunks[..c + 1]), now) == ts0 + Clocks(Concat(chunks[..c]), now) + Clocks(chunks[c], now)
  {
    ConcatSnoc(chunks, c);
    var a, b := Concat(chunks[..c]), chunks[c];
    assert Clocks(a + b, now) == Clocks(a, now) + Clocks(b, now);
  }

  /** The gathered results of a chunk: every task returns its classified response. */
  function Fetched(ids: seq<int>, answer: int -> Response, message: int -> string): (rs: seq<Task>)
    ensures |rs| == |ids| && forall k :: 0 <= k < |ids| ==> rs[k] == Finished(Classify(ids[k], answer(ids[k]), message(ids[k])))
  {
    seq(|ids|, k requires 0 <= k < |ids| => Finished(Classify(ids[k], answer(ids[k]), message(ids[k]))))
  }

  /** Where a run of chunks leaves the table and the count of inserted teams. */
  datatype Stored = Stored(table: TeamTable, inserted: nat)

  /** One chunk's batch insert: nothing when no team succeeded or the insert raised, else every success upserted. */
  function ChunkStored(t: TeamTable, ids: seq<int>, answer: int -> Response, message: int -> string, raises: bool): Stored
  {
    var succ := Successes(Fetched(ids, answer, message));
    if succ == [] || raises then Stored(t, 0) else Stored(UpsertAll(t, succ), |succ|)
  }

  /**
   * The chunks run in order from the table `t`; `raises(c)` says whether the
   * insert of chunk `c` (from 0) raises.
   */
  function RangeStored(t: TeamTable, chunks: seq<seq<int>>, answer: int -> Response, message: int -> string, raises: int -> bool): Stored
  {
    if chunks == [] then Stored(t, 0)
    else
      var prev := RangeStored(t, chunks[..|chunks| - 1], answer, message, raises);
      var step := ChunkStored(prev.table, chunks[|chunks| - 1], answer, message, raises(|chunks| - 1));
      step.(inserted := prev.inserted + step.inserted)
  }

  /** Running one more chunk extends the run by that chunk's insert. */
  lemma RangeStoredSnoc(t: TeamTable, chunks: seq<seq<int>>, c: nat, answer: int -> Response, message: int -> string, raises: int -> bool)
    requires c < |chunks|
    ensures var prev := RangeStored(t, chunks[..c], answer, message, raises);
            var step := ChunkStored(prev.table, chunks[c], answer, message, raises(c));
            RangeStored(t, chunks[..c + 1], answer, message, raises) == step.(inserted := prev.inserted + step.inserted)
  {
    var cs := chunks[..c + 1];
    assert cs != [] && cs[..|cs| - 1] == chunks[..c] && cs[|cs| - 1] == chunks[c];
  }

  /** When the chunk's insert does not raise, every id answered by a non-empty dict has a row afterwards. */
  lemma ChunkStoresSuccesses(t: TeamTable, ids: seq<int>, answer: int -> Response, message: int -> string)
    ensures var t' := ChunkStored(t, ids, answer, message, false).table;
            forall k :: 0 <= k < |ids| && IsSuccess(Finished(Classify(ids[k], answer(ids[k]), message(ids[k])))) ==> ids[k] in t'.rows
  {
    var rs := Fetched(ids, answer, message);
    var succ := Successes(rs);
    var t' := ChunkStored(t, ids, answer, message, false).table;
    forall k | 0 <= k < |ids| && IsSuccess(Finished(Classify(ids[k], answer(ids[k]), message(ids[k]))))
      ensures ids[k] in t'.rows
    {
      ResultsAreSuccesses(rs, k);
      var pair := (rs[k].fetch.id, rs[k].fetch.data);
      assert pair in succ && succ != [];
      assert t' == UpsertAll(t, succ);
      var i :| 0 <= i < |succ| && succ[i] == pair;
      assert succ[i].0 == ids[k];
      UpsertAllKeys(t, succ);
    }
  }

  /** A chunk adds a row only for an id it fetched and that was answered by a non-empty dict. */
  lemma ChunkAddsOnlySuccesses(t: TeamTable, ids: seq<int>, answer: int -> Response, message: int -> string, raises: bool)
    ensures var t' := ChunkStored(t, ids, answer, message, raises).table;
            forall id :: id in t'.rows && id !in t.rows ==>
              exists k :: 0 <= k < |ids| && ids[k] == id && IsSuccess(Finished(Classify(id, answer(id), message(id))))
  {
    var rs := Fetched(ids, answer, message);
    var succ := Successes(rs);
    var t' := ChunkStored(t, ids, answer, message, raises).table;
    forall id | id in t'.rows && id !in t.rows
      ensures exists k :: 0 <= k < |ids| && ids[k] == id && IsSuccess(Finished(Classify(id, answer(id), message(id))))
    {
      assert t' == UpsertAll(t, succ);
      UpsertAllKeys(t, succ);
      SuccessesAreResults(rs);
      var i :| 0 <= i < |succ| && succ[i].0 == id;
      assert succ[i] in succ;
      var k :| 0 <= k < |rs| && IsSuccess(rs[k]) && succ[i] == (rs[k].fetch.id, rs[k].fetch.data);
      assert ids[k] == id;
    }
  }

  /** A run of chunks never loses a row. */
  lemma {:induction false} RangeKeepsRows(t: TeamTable, chunks: seq<seq<int>>, answer: int -> Response, message: int -> string, raises: int -> bool)
    ensures forall k :: k in t.rows ==> k in RangeStored(t, chunks, answer, message, raises).table.rows
  {
    if chunks != [] {
      var init := chunks[..|chunks| - 1];
      RangeKeepsRows(t, init, answer, message, raises);
      var prev := RangeStored(t, init, answer, message, raises);
      UpsertAllGrows(prev.table, Successes(Fetched(chunks[|chunks| - 1], answer, message)));
    }
  }

  class ConcurrentTeamIngester {
    var maxConcurrent: int
    var rateLimitPerMinute: int
    /** `self.request_times`, oldest first. */
    var requestTimes: seq<int>
    /** The value of the `self.rate_limiter` semaphore. */
    var permits: int

    /** `asyncio.Semaphore` refuses a negative value, so both limits are at least 0. */
    constructor(maxConcurrent: int, rateLimitPerMinute: int)
      requires maxConcurrent >= 0 && rateLimitPerMinute >= 0
      ensures this.maxConcurrent == maxConcurrent && this.rateLimitPerMinute == rateLimitPerMinute
      ensures requestTimes == [] && permits == rateLimitPerMinute
      ensures Valid()
    {
      this.maxConcurrent := maxConcurrent;
      this.rateLimitPerMinute := rateLimitPerMinute;
      requestTimes := [];
      permits := rateLimitPerMinute;
    }

    predicate Valid()
      reads this
    {
      0 <= permits <= rateLimitPerMinute
    }

    /**
     * One round of `rate_limit_reset`, after its 60 s sleep, at clock `now`:
     * prune the window and recreate the semaphore with the permits it leaves.
     */
    method RateLimitReset(now: int)
      requires rateLimitPerMinute >= 0
      modifies this
      ensures maxConcurrent == old(maxConcurrent) && rateLimitPerMinute == old(rateLimitPerMinute)
      ensures requestTimes == Prune(old(requestTimes), now)
      ensures permits == RestoredPermits(rateLimitPerMinute, |requestTimes|)
      ensures Valid()
    {
      requestTimes := Prune(requestTimes, now);
      var used := |requestTimes|;
      permits := RestoredPermits(rateLimitPerMinute, used);
    }

    /**
     * `fetch_team_async(session, team_id)` at clock `now`: the permit taken
     * for the request is given back when it ends; the request time is
     * recorded and the response `r` classified.
     */
    method FetchTeamAsync(id: int, now: int, r: Response, message: string) returns (f: Fetch)
      modifies this
      ensures maxConcurrent == old(maxConcurrent) && rateLimitPerMinute == old(rateLimitPerMinute)
      ensures permits == old(permits)
      ensures requestTimes == old(requestTimes) + [now]
      ensures f == Classify(id, r, message)
    {
      requestTimes := requestTimes + [now];
      f := Classify(id, r, message);
    }

    /**
     * `insert_teams_batch(teams_data)`: 0 for an empty batch or a failed,
     * rolled-back transaction, otherwise `len(teams_data)` with every pair
     * upserted on its id.
     */
    method InsertTeamsBatch(t: TeamTable, batch: seq<(int, Json)>, raises: bool) returns (inserted: nat, t': TeamTable)
      ensures batch == [] || raises ==> inserted == 0 && t' == t
      ensures batch != [] && !raises ==> inserted == |batch| && t' == UpsertAll(t, batch)
    {
      if batch == [] || raises {
        return 0, t;
      }
      t' := t;
      var i := 0;
      while i < |batch|
        invariant i <= |batch|
        invariant t' == UpsertAll(t, batch[..i])
      {
        assert batch[..i + 1][..i] == batch[..i];
        var (id, data) := batch[i];
        t' := KeyedUpsert(t', id, data, Overwrite);
        i := i + 1;
      }
      assert batch[..i] == batch;
      inserted := |batch|;
    }

    /**
     * One chunk: gather the fetches of its ids, tally them and insert the
     * successes; `now(id)`, `answer(id)` and `message(id)` are each
     * request's clock, response and exception text.
     */
    method ProcessChunk(ids: seq<int>, t: TeamTable, now: int -> int, answer: int -> Response,
                        message: int -> string, raises: bool)
      returns (inserted: nat, successes: nat, notFound: nat, errors: nat, t': TeamTable)
      modifies this
      ensures maxConcurrent == old(maxConcurrent) && rateLimitPerMinute == old(rateLimitPerMinute)
      ensures permits == old(permits)
      ensures successes + notFound + errors == |ids|
      ensures inserted <= successes
      ensures forall k :: k in t.rows ==> k in t'.rows
      ensures requestTimes == old(requestTimes) + Clocks(ids, now)
      ensures Stored(t', inserted) == ChunkStored(t, ids, answer, message, raises)
      ensures var rs := Fetched(ids, answer, message); successes == |Successes(rs)| && notFound == NotFoundCount(rs)
    {
      var results: seq<Task> := [];
      var j := 0;
      while j < |ids|
        invariant j <= |ids| && |results| == j
        invariant maxConcurrent == old(maxConcurrent) && rateLimitPerMinute == old(rateLimitPerMinute)
        invariant permits == old(permits)
        invariant results == Fetched(ids[..j], answer, message)
        invariant requestTimes == old(requestTimes) + Clocks(ids[..j], now)
      {
        var f := FetchTeamAsync(ids[j], now(ids[j]), answer(ids[j]), message(ids[j]));
        results := results + [Finished(f)];
        j := j + 1;
      }
      assert ids[..j] == ids;
      var succ;
      succ, notFound, errors := TallyResults(results);
      successes := |succ|;
      inserted, t' := 0, t;
      if succ != [] {
        inserted, t' := InsertTeamsBatch(t, succ, raises);
        UpsertAllGrows(t, succ);
      }
    }

    /** One turn of the chunk loop of `process_team_range`: chunk `c` run and added to the totals. */
    method RunChunk(ghost ts0: seq<int>, ghost t0: TeamTable, chunks: seq<seq<int>>, c: nat, totals: Totals, successes: nat, t: TeamTable,
                    now: int -> int, answer: int -> Response, message: int -> string, raises: int -> bool)
      returns (totals': Totals, successes': nat, t': TeamTable)
      requires c < |chunks|
      requires totals.processed == SumSizes(chunks[..c])
      requires successes + totals.notFound + totals.errors == totals.processed && totals.successful <= successes
      requires requestTimes == ts0 + Clocks(Concat(chunks[..c]), now)
      requires Stored(t, totals.successful) == RangeStored(t0, chunks[..c], answer, message, raises)
      modifies this
      ensures maxConcurrent == old(maxConcurrent) && rateLimitPerMinute == old(rateLimitPerMinute) && permits == old(permits)
      ensures totals'.processed == SumSizes(chunks[..c + 1])
      ensures successes' + totals'.notFound + totals'.errors == totals'.processed && totals'.successful <= successes'
      ensures requestTimes == ts0 + Clocks(Concat(chunks[..c + 1]), now)
      ensures Stored(t', totals'.successful) == RangeStored(t0, chunks[..c + 1], answer, message, raises)
    {
      var ids := chunks[c];
      var inserted, succ, nf, err, t1 := ProcessChunk(ids, t, now, answer, message, raises(c));
      assert Stored(t1, totals.successful + inserted) == RangeStored(t0, chunks[..c + 1], answer, message, raises) by {
        RangeStoredSnoc(t0, chunks, c, answer, message, raises);
      }
      ClocksSnoc(ts0, chunks, c, now);
      SumSizesSnoc(chunks, c);
      totals' := Totals(totals.processed + |ids|, totals.successful + inserted, totals.notFound + nf, totals.errors + err);
      t' := t1;
      successes' := successes + succ;
    }

    /**
     * `process_team_range(start_id, end_id, batch_size)`: every id of
     * `start..end` is fetched once, in order, and counted once; the table
     * and the successful total are the chunk inserts run in order, and no
     * row is lost. `raises(c)` says whether the insert of chunk `c` (from 0)
     * fails. The closing log line divides by the processed count, so an
     * empty range raises there.
     */
    method ProcessTeamRange(start: int, end: int, batchSize: int, t0: TeamTable,
                            now: int -> int, answer: int -> Response, message: int -> string, raises: int -> bool)
      returns (totals: Totals, successes: nat, t: TeamTable, summaryRaises: bool)
      requires batchSize >= 1
      modifies this
      ensures maxConcurrent == old(maxConcurrent) && rateLimitPerMinute == old(rateLimitPerMinute) && permits == old(permits)
      ensures totals.processed == if start <= end then end - start + 1 else 0
      ensures successes + totals.notFound + totals.errors == totals.processed
      ensures totals.successful <= successes
      ensures forall k :: k in t0.rows ==> k in t.rows
      ensures requestTimes == old(requestTimes) + Clocks(Range(start, end), now)
      ensures Stored(t, totals.successful) == RangeStored(t0, IdChunks(start, end, batchSize), answer, message, raises)
      ensures summaryRaises <==> start > end
    {
      var chunks := IdChunks(start, end, batchSize);
      IdChunksPartition(start, end, batchSize);
      ghost var ts0 := requestTimes;
      totals := Totals(0, 0, 0, 0);
      successes := 0;
      t := t0;
      var c := 0;
      assert Concat(chunks[..0]) == [];
      while c < |chunks|
        invariant c <= |chunks|
        invariant maxConcurrent == old(maxConcurrent) && rateLimitPerMinute == old(rateLimitPerMinute) && permits == old(permits)
        invariant totals.processed == SumSizes(chunks[..c])
        invariant successes + totals.notFound + totals.errors == totals.processed
        invariant totals.successful <= successes
        invariant requestTimes == ts0 + Clocks(Concat(chunks[..c]), now)
        invariant Stored(t, totals.successful) == RangeStored(t0, chunks[..c], answer, message, raises)
      {
        totals, successes, t := RunChunk(ts0, t0, chunks, c, totals, successes, t, now, answer, message, raises);
        c := c + 1;
      }
      assert chunks[..c] == chunks;
      SumSizesIsConcatLength(chunks);
      assert forall k :: k in t0.rows ==> k in t.rows by {
        RangeKeepsRows(t0, chunks, answer, message, raises);
      }
      summaryRaises := totals.processed == 0;
    }
  }

  /** Upserts never remove a row. */
  lemma {:induction false} UpsertAllGrows(t: TeamTable, batch: seq<(int, Json)>)
    ensures forall k :: k in t.rows ==> k in UpsertAll(t, batch).rows
  {
    if batch != [] {
      UpsertAllGrows(t, batch[..|batch| - 1]);
    }
  }
}
