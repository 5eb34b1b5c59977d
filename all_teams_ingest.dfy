/**
 * `scripts/bronze/ingest_all_teams.py`: walk team ids 1..4000, skip the ids
 * already stored, fetch the rest one at a time with a status-driven
 * backoff, upsert each team on its id and commit every ten loads. Times are
 * in milliseconds.
 */
module AllTeamsIngest {
  import opened Wrappers
  import opened Json
  import opened Http
  import opened Tables
  import opened RawStore
  import opened FixedRetry
  import opened PyText
  import Canonical
  import CompleteTeams

  const MinTeamId: int := 1
  const MaxTeamId: int := 4000
  /** `RATE_LIMIT_DELAY = 2.5` seconds. */
  const RateLimitDelayMs: nat := 2500
  const BatchCommitSize: nat := 10

  function TeamUrl(id: int): string
  {
    "https://virtual.sssfonline.com/api/teams/" + IntToString(id)
  }

  /** The `source` column: `f'teams/{api_team_id}'`. */
  function TeamSource(id: int): string
  {
    "teams/" + IntToString(id)
  }

  /** `data and isinstance(data, dict) and data.get('id')`. */
  predicate ValidTeam(j: Json)
  {
    j.JObj? && Truthy(j) && Truthy(Get(j, "id"))
  }

  /** What one attempt decides: return a value now, or sleep and try again. */
  datatype Step = Done(data: Json) | Retry(waitMs: nat)

  /**
   * Attempt `k` of `fetch_team_with_retry`. A 200 whose body does not parse
   * makes `response.json()` raise a `JSONDecodeError`, a `RequestException`.
   */
  function AttemptStep(r: Response, k: nat): Step
  {
    match r
    case Reply(status, body) =>
      if status == 200 then
        if body.Unparsable? then Retry(5000 * Pow(2, k))
        else if ValidTeam(body.json) then Done(body.json) else Done(JNull)
      else if status == 404 then Done(JNull)
      else if status == 429 then Retry(60000 * Pow(2, k))
      else if status >= 500 then Retry(5000 * Pow(2, k))
      else Done(JNull)
    case Timeout => Retry(10000 * Pow(2, k))
    case RequestError => Retry(5000 * Pow(2, k))
  }

  /** An attempt is retried exactly on a 429, a 5xx, a timeout, a transport error or an unparsable 200. */
  lemma RetryCases(r: Response, k: nat)
    ensures AttemptStep(r, k).Retry? <==>
            r.Timeout? || r.RequestError? ||
            (r.Reply? && (r.status == 429 || r.status >= 500 || (r.status == 200 && r.body.Unparsable?)))
  {
  }

  /** A value is only ever returned for a 200 carrying a dict with a truthy id; every other `Done` is None. */
  lemma DoneIsValidTeam(r: Response, k: nat)
    requires AttemptStep(r, k).Done?
    ensures var d := AttemptStep(r, k).data;
            (d == JNull || ValidTeam(d)) &&
            (d != JNull <==> r.Reply? && r.status == 200 && r.body.Parsed? && ValidTeam(r.body.json))
  {
  }

  /** The pause after attempt `k` is the base of its cause times `2^k`: 60 s for a 429, 10 s for a timeout, 5 s otherwise. */
  lemma RetryWait(r: Response, k: nat)
    requires AttemptStep(r, k).Retry?
    ensures var w := AttemptStep(r, k).waitMs;
            (r.Reply? && r.status == 429 ==> w == 60000 * Pow(2, k)) &&
            (r.Timeout? ==> w == 10000 * Pow(2, k)) &&
            (!(r.Reply? && r.status == 429) && !r.Timeout? ==> w == 5000 * Pow(2, k))
  {
  }

  /** The pause of a retried step, 0 for a returned one. */
  function WaitOf(s: Step): nat
  {
    if s.Retry? then s.waitMs else 0
  }

  /** The pauses after the first `n` attempts of `url`. */
  function Waits(url: string, net: Network, n: nat): (ws: seq<nat>)
    ensures |ws| == n
    ensures forall k :: 0 <= k < n ==> ws[k] == WaitOf(AttemptStep(net(url, k), k))
  {
    if n == 0 then [] else Waits(url, net, n - 1) + [WaitOf(AttemptStep(net(url, n - 1), n - 1))]
  }

  /**
   * The promise of `fetch_team_with_retry`: every attempt but the last was
   * retried; the last one decides the result, or all `MAX_RETRIES` were
   * retried and the result is None; every retried attempt, the final one
   * included, is followed by its pause.
   */
  predicate FetchSpec(url: string, net: Network, data: Json, requests: nat, waits: seq<nat>)
  {
    1 <= requests <= MaxRetries &&
    (forall k :: 0 <= k < requests - 1 ==> AttemptStep(net(url, k), k).Retry?) &&
    var last := AttemptStep(net(url, requests - 1), requests - 1);
    (last.Done? ==> data == last.data && waits == Waits(url, net, requests - 1)) &&
    (last.Retry? ==> requests == MaxRetries && data == JNull && waits == Waits(url, net, MaxRetries))
  }

  /** `fetch_team_with_retry(team_id, session)`. */
  method FetchTeamWithRetry(id: int, net: Network) returns (data: Json, requests: nat, waits: seq<nat>)
    ensures FetchSpec(TeamUrl(id), net, data, requests, waits)
  {
    var url := TeamUrl(id);
    var attempt := 0;
    waits := [];
    while attempt < MaxRetries
      invariant attempt <= MaxRetries
      invariant forall k :: 0 <= k < attempt ==> AttemptStep(net(url, k), k).Retry?
      invariant waits == Waits(url, net, attempt)
    {
      var s := AttemptStep(net(url, attempt), attempt);
      if s.Done? {
        return s.data, attempt + 1, waits;
      }
      waits := waits + [s.waitMs];
      attempt := attempt + 1;
    }
    return JNull, MaxRetries, waits;
  }

  /** Whatever the server does, the fetch returns None or a dict with a truthy id. */
  lemma FetchResultValid(url: string, net: Network, data: Json, requests: nat, waits: seq<nat>)
    requires FetchSpec(url, net, data, requests, waits)
    ensures data == JNull || ValidTeam(data)
  {
    var last := AttemptStep(net(url, requests - 1), requests - 1);
    if last.Done? {
      DoneIsValidTeam(net(url, requests - 1), requests - 1);
    }
  }

  /** A team answering 429 three times costs 60 + 120 + 240 seconds of pauses and yields None. */
  lemma RateLimitedThrice(url: string, net: Network, data: Json, requests: nat, waits: seq<nat>)
    requires forall k :: 0 <= k < MaxRetries ==> net(url, k) == Reply(429, Unparsable)
    requires FetchSpec(url, net, data, requests, waits)
    ensures requests == MaxRetries && data == JNull && waits == [60000, 120000, 240000]
  {
    assert Pow(2, 1) == 2 && Pow(2, 2) == 4;
  }

  /** A row of `raw_teams`, keyed on the API team id. */
  datatype TeamRow = TeamRow(payload: Json, source: string, sourceHash: string)

  type TeamTable = Keyed<int, TeamRow>

  /** The row `insert_team` writes; the hash is the MD5 of `json.dumps(team_data, sort_keys=True)`. */
  function TeamRowFor(id: int, data: Json, md5: Hasher): TeamRow
  {
    TeamRow(data, TeamSource(id), md5(Canonical.Dumps(data, Canonical.Default)))
  }

  /**
   * `insert_team(conn, api_team_id, team_data)`: `ON CONFLICT (id) DO UPDATE`
   * replaces payload, source and hash, so afterwards the id holds exactly the
   * latest row; False, with nothing written, when the statement raises.
   */
  function InsertTeam(t: TeamTable, id: int, data: Json, md5: Hasher, raises: bool): (r: (bool, TeamTable))
    ensures r.0 <==> !raises
    ensures r.0 ==> r.1.rows == t.rows[id := TeamRowFor(id, data, md5)]
    ensures !r.0 ==> r.1 == t
  {
    if raises then (false, t) else (true, KeyedUpsert(t, id, TeamRowFor(id, data, md5), Overwrite))
  }

  /** Upserting the same team twice leaves one row, holding the second payload. */
  lemma InsertTeamTwice(t: TeamTable, id: int, d1: Json, d2: Json, md5: Hasher)
    ensures var t2 := InsertTeam(InsertTeam(t, id, d1, md5, false).1, id, d2, md5, false).1;
            t2.rows.Keys == t.rows.Keys + {id} && t2.rows[id] == TeamRowFor(id, d2, md5)
  {
  }

  /** `(payload->>'id')::int` for a stored payload: NULL, a value, or a cast error. */
  function StoredId(p: Json): CompleteTeams.SqlInt
  {
    CompleteTeams.TextCast(CompleteTeams.Arrow(p, "id"))
  }

  /**
   * `SELECT 1 FROM raw_teams WHERE (payload->>'id')::int = %s` evaluates the
   * cast on every row, so one stored id that is not a 32-bit integer
   * (`"abc"`, `true`, 3000000000) makes the query raise.
   */
  predicate CheckFails(t: TeamTable)
  {
    exists k :: k in t.rows && StoredId(t.rows[k].payload).CastFails?
  }

  /** The same query finds a row. */
  predicate Present(t: TeamTable, id: int)
  {
    exists k :: k in t.rows && StoredId(t.rows[k].payload) == CompleteTeams.SqlValue(id)
  }

  /** A loaded team is found by the next run's check, so it is skipped then. */
  lemma LoadedIsPresent(t: TeamTable, id: int, data: Json, md5: Hasher)
    requires ValidTeam(data) && Get(data, "id") == JInt(id) && MinTeamId <= id <= MaxTeamId
    ensures Present(InsertTeam(t, id, data, md5, false).1, id)
  {
    var t' := InsertTeam(t, id, data, md5, false).1;
    assert id in t'.rows && StoredId(t'.rows[id].payload) == CompleteTeams.SqlValue(id);
  }

  /** A team whose API id is `true` breaks every later check. */
  lemma BoolIdBreaksCheck(t: TeamTable, id: int, md5: Hasher)
    ensures CheckFails(InsertTeam(t, id, JObj([Field("id", JBool(true))]), md5, false).1)
  {
    var t' := InsertTeam(t, id, JObj([Field("id", JBool(true))]), md5, false).1;
    assert CompleteTeams.Arrow(t'.rows[id].payload, "id") == Some(JBool(true));
  }

  datatype Outcome = Skipped | NotFound | Loaded | Failed

  /**
   * One iteration of the loop in `main` once its check has run: an id
   * already present is skipped with no request; otherwise the script sleeps
   * 2.5 s, fetches, and inserts what it got (`pauses` are those sleeps).
   * Only a load changes the table.
   */
  method VisitTeam(id: int, t: TeamTable, net: Network, md5: Hasher, raises: bool)
    returns (outcome: Outcome, t': TeamTable, data: Json, requests: nat, pauses: seq<nat>)
    ensures outcome == Skipped <==> Present(t, id)
    ensures outcome == Skipped ==> requests == 0 && pauses == [] && t' == t
    ensures outcome != Skipped ==>
              exists waits :: FetchSpec(TeamUrl(id), net, data, requests, waits) && pauses == [RateLimitDelayMs] + waits
    ensures outcome == NotFound <==> !Present(t, id) && data == JNull
    ensures outcome == Failed <==> !Present(t, id) && data != JNull && raises
    ensures outcome == Loaded ==> t'.rows == t.rows[id := TeamRowFor(id, data, md5)]
    ensures outcome != Loaded ==> t' == t
  {
    if Present(t, id) {
      return Skipped, t, JNull, 0, [];
    }
    var waits;
    data, requests, waits := FetchTeamWithRetry(id, net);
    pauses := [RateLimitDelayMs] + waits;
    if data == JNull {
      return NotFound, t, data, requests, pauses;
    }
    var (ok, t1) := InsertTeam(t, id, data, md5, raises);
    if ok {
      outcome, t' := Loaded, t1;
    } else {
      outcome, t' := Failed, t;
    }
  }

  /** The table holds a row written by `insert_team` for team `id`. */
  predicate HoldsTeam(t: TeamTable, id: int)
  {
    id in t.rows && t.rows[id].source == TeamSource(id)
  }

  /**
   * The loop's account of the table once every id below `next` is visited:
   * the loaded ids ascend, each lies in `MIN_TEAM_ID..next` and holds its
   * `insert_team` row, the table's rows are the stored ones plus the loaded
   * ones, and every stored row not loaded again is unchanged.
   */
  ghost predicate Account(work: TeamTable, t0: TeamTable, loaded: seq<int>, next: int)
  {
    (forall i, j :: 0 <= i < j < |loaded| ==> loaded[i] < loaded[j]) &&
    (forall x :: x in loaded ==> MinTeamId <= x < next && HoldsTeam(work, x)) &&
    (forall k :: k in work.rows <==> k in t0.rows || k in loaded) &&
    (forall k :: k in t0.rows && k !in loaded ==> work.rows[k] == t0.rows[k])
  }

  /** Loading `id`, above every id loaded so far, keeps the loop's account of the table. */
  lemma LoadStep(work: TeamTable, t1: TeamTable, loaded: seq<int>, id: int, row: TeamRow, t0: TeamTable)
    requires t1.rows == work.rows[id := row] && row.source == TeamSource(id)
    requires Account(work, t0, loaded, id) && MinTeamId <= id
    ensures Account(t1, t0, loaded + [id], id + 1)
  {
    var l := loaded + [id];
    forall i, j | 0 <= i < j < |l|
      ensures l[i] < l[j]
    {
      if j == |loaded| {
        assert l[i] in loaded;
      }
    }
  }

  /** Visiting `id` without loading it keeps the account too. */
  lemma PassStep(work: TeamTable, loaded: seq<int>, id: int, t0: TeamTable)
    requires Account(work, t0, loaded, id)
    ensures Account(work, t0, loaded, id + 1)
  {
  }

  /** `successful // BATCH_COMMIT_SIZE` recovered from its quotient-remainder split. */
  lemma DivOfSplit(n: nat, q: nat, r: nat)
    requires q * BatchCommitSize + r == n && r < BatchCommitSize
    ensures q == n / BatchCommitSize
  {
  }

  /** The four counters of `main`. */
  datatype Totals = Totals(successful: nat, failed: nat, skipped: nat, notFound: nat)
  {
    function Visited(): nat
    {
      successful + failed + skipped + notFound
    }

    function Count(o: Outcome): (r: Totals)
      ensures r.Visited() == Visited() + 1
      ensures r.successful == successful + (if o == Loaded then 1 else 0)
    {
      match o
      case Skipped => this.(skipped := skipped + 1)
      case NotFound => this.(notFound := notFound + 1)
      case Loaded => this.(successful := successful + 1)
      case Failed => this.(failed := failed + 1)
    }
  }

  /**
   * The state of `main`'s loop before visiting `id`: the counters account
   * for every id below it, `batch_count` loads are staged since the last
   * commit, and the committed table holds exactly the loads up to that
   * commit.
   */
  ghost predicate MainState(t0: TeamTable, id: int, totals: Totals, work: TeamTable, durable: TeamTable,
                            loaded: seq<int>, batchCount: nat, commits: nat)
  {
    totals.Visited() == id - MinTeamId && |loaded| == totals.successful &&
    Account(work, t0, loaded, id) &&
    batchCount < BatchCommitSize && commits * BatchCommitSize + batchCount == totals.successful &&
    Account(durable, t0, loaded[..commits * BatchCommitSize], id)
  }

  /** A prefix of an account of the loads is an account of the loads in that prefix. */
  lemma CommittedPrefix(work: TeamTable, t0: TeamTable, loaded: seq<int>, next: int)
    requires Account(work, t0, loaded, next)
    ensures Account(work, t0, loaded[..|loaded|], next)
  {
    assert loaded[..|loaded|] == loaded;
  }

  /** Loading `id` keeps the loop state, committing when the tenth staged load arrives. */
  lemma LoadKeepsState(t0: TeamTable, id: int, totals: Totals, totals': Totals, work: TeamTable, t1: TeamTable,
                       durable: TeamTable, loaded: seq<int>, batchCount: nat, commits: nat, row: TeamRow)
    requires MinTeamId <= id && MainState(t0, id, totals, work, durable, loaded, batchCount, commits)
    requires t1.rows == work.rows[id := row] && row.source == TeamSource(id)
    requires totals'.Visited() == totals.Visited() + 1 && totals'.successful == totals.successful + 1
    ensures batchCount + 1 >= BatchCommitSize ==>
              MainState(t0, id + 1, totals', t1, t1, loaded + [id], 0, commits + 1)
    ensures batchCount + 1 < BatchCommitSize ==>
              MainState(t0, id + 1, totals', t1, durable, loaded + [id], batchCount + 1, commits)
  {
    var loaded' := loaded + [id];
    LoadStep(work, t1, loaded, id, row, t0);
    if batchCount + 1 >= BatchCommitSize {
      CommittedPrefix(t1, t0, loaded', id + 1);
    } else {
      assert loaded'[..commits * BatchCommitSize] == loaded[..commits * BatchCommitSize];
    }
  }

  /** Visiting `id` without loading it keeps the loop state. */
  lemma PassKeepsState(t0: TeamTable, id: int, totals: Totals, totals': Totals, work: TeamTable,
                       durable: TeamTable, loaded: seq<int>, batchCount: nat, commits: nat)
    requires MainState(t0, id, totals, work, durable, loaded, batchCount, commits)
    requires totals'.Visited() == totals.Visited() + 1 && totals'.successful == totals.successful
    ensures MainState(t0, id + 1, totals', work, durable, loaded, batchCount, commits)
  {
  }

  /** One pass of `main`'s loop body for `id`: visit it, count the outcome, commit every tenth load. */
  method MainStep(t0: TeamTable, id: int, net: Network, md5: Hasher, raises: bool, totals: Totals, work: TeamTable,
                  durable: TeamTable, loaded: seq<int>, batchCount: nat, commits: nat)
    returns (outcome: Outcome, totals': Totals, work': TeamTable, durable': TeamTable, loaded': seq<int>,
             batchCount': nat, commits': nat)
    requires MinTeamId <= id
    requires MainState(t0, id, totals, work, durable, loaded, batchCount, commits)
    ensures MainState(t0, id + 1, totals', work', durable', loaded', batchCount', commits')
    ensures outcome == Failed <==> !Present(work, id) && raises && totals'.failed == totals.failed + 1
    ensures totals'.failed == totals.failed + (if outcome == Failed then 1 else 0)
  {
    var t1, data, requests, pauses;
    outcome, t1, data, requests, pauses := VisitTeam(id, work, net, md5, raises);
    totals' := totals.Count(outcome);
    if outcome == Loaded {
      LoadKeepsState(t0, id, totals, totals', work, t1, durable, loaded, batchCount, commits, TeamRowFor(id, data, md5));
      work', loaded' := t1, loaded + [id];
      if batchCount + 1 >= BatchCommitSize {
        durable', batchCount', commits' := t1, 0, commits + 1;
      } else {
        durable', batchCount', commits' := durable, batchCount + 1, commits;
      }
    } else {
      PassKeepsState(t0, id, totals, totals', work, durable, loaded, batchCount, commits);
      work', durable', loaded', batchCount', commits' := work, durable, loaded, batchCount, commits;
    }
  }

  /** How `main`'s loop ended. */
  datatype Stop =
    | Completed            // every id up to MAX_TEAM_ID was visited
    | Interrupted(at: int) // a KeyboardInterrupt arrived before visiting `at`
    | CheckRaised(at: int) // the existence check for `at` raised
    | InsertFailed(at: int) // the insert of `at` raised

  /** The number of ids `main` visited before it stopped. */
  function VisitedBy(stop: Stop): int
  {
    match stop
    case Completed => MaxTeamId - MinTeamId + 1
    case Interrupted(at) => at - MinTeamId
    case CheckRaised(at) => at - MinTeamId
    case InsertFailed(at) => at - MinTeamId + 1
  }

  /** The variables of `main`'s loop, `next` being the id it visits next. */
  datatype Run = Run(stop: Stop, totals: Totals, work: TeamTable, durable: TeamTable, loaded: seq<int>,
                     batchCount: nat, commits: nat, next: int)

  /** What holds of `main`'s variables between two iterations. */
  ghost predicate RunInv(t0: TeamTable, raises: int -> bool, interrupt: Option<int>, r: Run)
  {
    MinTeamId <= r.next <= MaxTeamId + 1 &&
    MainState(t0, r.next, r.totals, r.work, r.durable, r.loaded, r.batchCount, r.commits) &&
    (r.next == MinTeamId ==> r.work == t0) &&
    r.totals.failed == (if r.stop.InsertFailed? then 1 else 0) &&
    (!r.stop.Completed? ==> MinTeamId <= r.stop.at <= MaxTeamId && VisitedBy(r.stop) == r.next - MinTeamId) &&
    (r.stop.Interrupted? ==> interrupt == Some(r.stop.at)) &&
    (r.stop.CheckRaised? ==> CheckFails(r.work)) &&
    (r.stop.InsertFailed? ==> raises(r.stop.at)) &&
    (CheckFails(t0) && interrupt != Some(MinTeamId) ==>
       if r.stop.Completed? then r.next == MinTeamId else r.stop == CheckRaised(MinTeamId))
  }

  /** The loop stopping in front of `r.next` keeps its invariant. */
  lemma HaltKeepsRun(t0: TeamTable, raises: int -> bool, interrupt: Option<int>, r: Run, stop: Stop)
    requires RunInv(t0, raises, interrupt, r) && r.stop.Completed? && r.next <= MaxTeamId
    requires (stop == Interrupted(r.next) && interrupt == Some(r.next)) ||
             (stop == CheckRaised(r.next) && CheckFails(r.work))
    ensures RunInv(t0, raises, interrupt, r.(stop := stop))
  {
  }

  /** The loop moving past `r.next` keeps its invariant. */
  lemma AdvanceKeepsRun(t0: TeamTable, raises: int -> bool, interrupt: Option<int>, r: Run, r': Run)
    requires RunInv(t0, raises, interrupt, r) && r.stop.Completed? && r.next <= MaxTeamId
    requires interrupt != Some(r.next) && !CheckFails(r.work)
    requires r'.next == r.next + 1
    requires MainState(t0, r'.next, r'.totals, r'.work, r'.durable, r'.loaded, r'.batchCount, r'.commits)
    requires r'.totals.failed == r.totals.failed + (if r'.stop.InsertFailed? then 1 else 0)
    requires r'.stop == Completed || (r'.stop == InsertFailed(r.next) && raises(r.next))
    ensures RunInv(t0, raises, interrupt, r')
  {
    assert !(CheckFails(t0) && interrupt != Some(MinTeamId)) by {
      if r.next == MinTeamId {
        assert r.work == t0;
      }
    }
  }

  /** One iteration of `main`'s loop, from the interrupt check to the commit every tenth load. */
  method MainIteration(t0: TeamTable, net: Network, md5: Hasher, raises: int -> bool, interrupt: Option<int>, r: Run)
    returns (r': Run)
    requires RunInv(t0, raises, interrupt, r) && r.stop.Completed? && r.next <= MaxTeamId
    ensures RunInv(t0, raises, interrupt, r')
    ensures r'.next > r.next || (r'.next == r.next && !r'.stop.Completed?)
  {
    var id := r.next;
    if interrupt == Some(id) {
      HaltKeepsRun(t0, raises, interrupt, r, Interrupted(id));
      r' := r.(stop := Interrupted(id));
    } else if CheckFails(r.work) {
      HaltKeepsRun(t0, raises, interrupt, r, CheckRaised(id));
      r' := r.(stop := CheckRaised(id));
    } else {
      var outcome, totals, work, durable, loaded, batchCount, commits :=
        MainStep(t0, id, net, md5, raises(id), r.totals, r.work, r.durable, r.loaded, r.batchCount, r.commits);
      var stop := if outcome == Failed then InsertFailed(id) else Completed;
      r' := Run(stop, totals, work, durable, loaded, batchCount, commits, id + 1);
      AdvanceKeepsRun(t0, raises, interrupt, r, r');
    }
  }

  /**
   * `main`. `interrupt` is the id before which a `KeyboardInterrupt`
   * arrives, if one does; `raises(id)` says whether the insert of that id
   * fails. `insert_team` swallows that error without a rollback, so the
   * transaction is aborted: the next existence check raises (an exception
   * the loop does not catch), and the `finally` commit of an aborted
   * transaction rolls back every load staged since the last commit. An
   * existence check that raises ends the loop the same way and aborts the
   * transaction itself, so that commit rolls back too; only after a
   * `KeyboardInterrupt` or the end of the range does it keep the staged
   * loads. `work` is the table as the session saw it last; `durable` is the
   * committed one.
   */
  method IngestAllTeams(t0: TeamTable, net: Network, md5: Hasher, raises: int -> bool, interrupt: Option<int>)
    returns (stop: Stop, totals: Totals, work: TeamTable, durable: TeamTable, loaded: seq<int>, commits: nat)
    ensures !stop.Completed? ==> MinTeamId <= stop.at <= MaxTeamId
    ensures stop.Interrupted? ==> interrupt == Some(stop.at)
    ensures stop.CheckRaised? ==> CheckFails(work)
    ensures CheckFails(t0) && interrupt != Some(MinTeamId) ==> stop == CheckRaised(MinTeamId)
    ensures stop.InsertFailed? ==> raises(stop.at)
    ensures totals.Visited() == VisitedBy(stop)
    ensures totals.failed == (if stop.InsertFailed? then 1 else 0)
    ensures |loaded| == totals.successful && commits == totals.successful / BatchCommitSize + 1
    ensures forall i, j :: 0 <= i < j < |loaded| ==> loaded[i] < loaded[j]
    ensures Account(work, t0, loaded, MaxTeamId + 1)
    ensures var committed := if stop.InsertFailed? || stop.CheckRaised? then loaded[..(commits - 1) * BatchCommitSize] else loaded;
            Account(durable, t0, committed, MaxTeamId + 1)
  {
    var r := Run(Completed, Totals(0, 0, 0, 0), t0, t0, [], 0, 0, MinTeamId);
    var none: seq<int> := [];
    assert MainState(t0, MinTeamId, r.totals, t0, t0, none, 0, 0) by {
      assert none[..0] == none;
    }
    while r.next <= MaxTeamId && r.stop.Completed?
      invariant RunInv(t0, raises, interrupt, r)
      decreases MaxTeamId + 1 - r.next, if r.stop.Completed? then 1 else 0
    {
      r := MainIteration(t0, net, md5, raises, interrupt, r);
    }
    stop, totals, work, loaded := r.stop, r.totals, r.work, r.loaded;
    assert Account(work, t0, loaded, MaxTeamId + 1) by {
      AccountWiden(work, t0, loaded, r.next, MaxTeamId + 1);
    }
    DivOfSplit(totals.successful, r.commits, r.batchCount);
    if stop.InsertFailed? || stop.CheckRaised? {
      durable := r.durable;
      AccountWiden(durable, t0, loaded[..r.commits * BatchCommitSize], r.next, MaxTeamId + 1);
    } else {
      durable := work;
    }
    commits := r.commits + 1;
  }

  /** An account up to `next` is one for every later bound as well. */
  lemma AccountWiden(work: TeamTable, t0: TeamTable, loaded: seq<int>, next: int, next': int)
    requires Account(work, t0, loaded, next) && next <= next'
    ensures Account(work, t0, loaded, next')
  {
  }
}
