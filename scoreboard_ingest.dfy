/**
 * `scripts/bronze/concurrent_scoreboard_ingest.py`: fetch the scoreboard of
 * every competition not yet in `raw_scoreboard`, in batches split among
 * workers, and store each payload once by its canonical hash.
 */
module ScoreboardIngest {
  import opened Wrappers
  import opened Json
  import opened Http
  import opened Tables
  import opened RawStore
  import opened FixedRetry
  import opened Partition
  import opened PyText

  const BaseUrl: string := "https://virtual.sssfonline.com/api/shot/sasp-scoreboard"
  const MaxWorkers: nat := 5
  /** `MAX_WORKERS * 10`. */
  const BatchSize: nat := 50

  function ScoreboardUrl(competitionId: int): string
  {
    BaseUrl + "/" + IntToString(competitionId)
  }

  /**
   * The log line after a 200 computes `len(data.get('EntryData', []))` for a
   * dict, which raises when that value has no length.
   */
  predicate LogLineSucceeds(data: Json)
  {
    !data.JObj? || HasLen(GetOr(data, "EntryData", JArr([])))
  }

  /** `fetch_scoreboard(competition_id, session)`. */
  method FetchScoreboard(competitionId: int, net: Network) returns (result: Fetched, requests: nat, waits: seq<nat>)
    ensures 1 <= requests <= MaxRetries
    ensures forall k :: 0 <= k < requests - 1 ==> !Decisive(net(ScoreboardUrl(competitionId), k))
    ensures var last := net(ScoreboardUrl(competitionId), requests - 1);
            (Decisive(last) ==> result == Verdict(last, LogLineSucceeds)) &&
            (!Decisive(last) ==> requests == MaxRetries && result == Returned(JNull))
    ensures waits == Backoffs(requests - 1)
    ensures result == ScoreboardFetch(competitionId, net) && waits == FetchWaits(competitionId, net)
  {
    result, requests, waits := Fetch(ScoreboardUrl(competitionId), net, LogLineSucceeds);
  }

  /** What `fetch_scoreboard` hands back for `competitionId`. */
  function ScoreboardFetch(competitionId: int, net: Network): Fetched
  {
    Outcome(ScoreboardUrl(competitionId), net, LogLineSucceeds, 0)
  }

  /** The backoff pauses `fetch_scoreboard` takes for `competitionId`. */
  function FetchWaits(competitionId: int, net: Network): seq<nat>
  {
    Backoffs(Attempts(ScoreboardUrl(competitionId), net, 0) - 1)
  }

  /** The row `insert_scoreboard_data` writes. */
  function ScoreboardRow(competitionId: int, data: Json, hash: Hasher): RawRow
  {
    RawRow(JInt(competitionId), data, ScoreboardUrl(competitionId), CanonicalHash(hash, data))
  }

  /**
   * `insert_scoreboard_data(conn, competition_id, data)`: True exactly when
   * the statement goes through and no stored row has the payload's canonical
   * hash; then that row is the one added.
   */
  function InsertScoreboard(t: RawTable, competitionId: int, data: Json, hash: Hasher, raises: bool): (r: (bool, RawTable))
    requires t.Valid()
    ensures r.1.Valid()
    ensures r.0 <==> !raises && CanonicalHash(hash, data) !in t.index
    ensures r.0 ==> r.1.RowCount() == t.RowCount() + 1 && CanonicalHash(hash, data) in r.1.index &&
                    r.1.rows[r.1.index[CanonicalHash(hash, data)]] == RawRow(JInt(competitionId), data, ScoreboardUrl(competitionId), CanonicalHash(hash, data))
    ensures !r.0 ==> r.1.rows == t.rows && r.1.index == t.index
    ensures raises ==> r.1 == t
    ensures Grows(t, r.1)
  {
    StoreRawGrows(t, ScoreboardRow(competitionId, data, hash), raises);
    StoreRaw(t, ScoreboardRow(competitionId, data, hash), raises)
  }

  /** The counters of `process_scoreboard_batch` and `main`. */
  datatype Counts = Counts(successful: nat, failed: nat, notFound: nat, duplicate: nat)
  {
    /** The ids accounted for. */
    function Handled(): nat
    {
      successful + notFound + duplicate
    }

    function Plus(o: Counts): Counts
    {
      Counts(successful + o.successful, failed + o.failed, notFound + o.notFound, duplicate + o.duplicate)
    }
  }

  /**
   * `insert_scoreboard_data` on the shared connection. Its `except` swallows
   * the error without a rollback, so a failing INSERT leaves the transaction
   * aborted, and every later INSERT then raises and is swallowed in turn:
   * True exactly when the transaction is not aborted, the statement goes
   * through and the hash is new.
   */
  function InsertInSession(s: Session, competitionId: int, data: Json, hash: Hasher, raises: bool): (r: (bool, Session))
    requires s.table.Valid()
    ensures r.1.table.Valid() && Grows(s.table, r.1.table)
    ensures r.1.aborted <==> s.aborted || raises
    ensures r.0 <==> !s.aborted && !raises && CanonicalHash(hash, data) !in s.table.index
    ensures r.0 ==> r.1.table.RowCount() == s.table.RowCount() + 1
    ensures !r.0 ==> r.1.table.RowCount() == s.table.RowCount()
    ensures s.aborted ==> r.1 == s
  {
    var step := InsertScoreboard(s.table, competitionId, data, hash, s.aborted || raises);
    (step.0, Session(step.1, s.aborted || raises))
  }

  /** A worker's session together with its counters. */
  datatype Acc = Acc(session: Session, counts: Counts)

  /** An id whose fetched payload is truthy, so that its INSERT is sent, and whose INSERT fails. */
  predicate FailingInsert(competitionId: int, net: Network, raises: int -> bool)
  {
    var f := ScoreboardFetch(competitionId, net);
    f.Returned? && Truthy(f.data) && raises(competitionId)
  }

  /** Some id of `ids` has a failing INSERT. */
  predicate AnyFailing(ids: seq<int>, net: Network, raises: int -> bool)
  {
    exists k :: 0 <= k < |ids| && FailingInsert(ids[k], net, raises)
  }

  lemma AnyFailingAppend(a: seq<int>, b: seq<int>, net: Network, raises: int -> bool)
    ensures AnyFailing(a + b, net, raises) <==> AnyFailing(a, net, raises) || AnyFailing(b, net, raises)
  {
    if AnyFailing(a + b, net, raises) {
      var k :| 0 <= k < |a + b| && FailingInsert((a + b)[k], net, raises);
      if k >= |a| {
        assert FailingInsert(b[k - |a|], net, raises);
      } else {
        assert FailingInsert(a[k], net, raises);
      }
    }
    if AnyFailing(b, net, raises) {
      var k :| 0 <= k < |b| && FailingInsert(b[k], net, raises);
      assert (a + b)[|a| + k] == b[k];
    }
    if AnyFailing(a, net, raises) {
      var k :| 0 <= k < |a| && FailingInsert(a[k], net, raises);
      assert (a + b)[k] == a[k];
    }
  }

  lemma AnyFailingSingle(x: int, net: Network, raises: int -> bool)
    ensures AnyFailing([x], net, raises) <==> FailingInsert(x, net, raises)
  {
    assert [x][0] == x;
  }

  /** `RATE_LIMIT_DELAY / MAX_WORKERS`: the pause before each id, 0.6 s. */
  const IdPauseMs: nat := RateLimitDelayMs / MaxWorkers

  /** The pauses for one id: the rate-limit pause, then the fetch's backoffs. */
  function IdWaits(competitionId: int, net: Network): seq<nat>
  {
    [IdPauseMs] + FetchWaits(competitionId, net)
  }

  /** The pauses for the ids fetched, in order. */
  function WaitsOf(ids: seq<int>, net: Network): seq<nat>
  {
    if ids == [] then [] else IdWaits(ids[0], net) + WaitsOf(ids[1..], net)
  }

  lemma {:induction false} WaitsOfAppend(a: seq<int>, b: seq<int>, net: Network)
    ensures WaitsOf(a + b, net) == WaitsOf(a, net) + WaitsOf(b, net)
  {
    if a != [] {
      assert (a + b)[1..] == a[1..] + b;
      WaitsOfAppend(a[1..], b, net);
    } else {
      assert a + b == b;
    }
  }

  /**
   * One id of `process_scoreboard_batch`: None when an exception escapes the
   * fetch; otherwise counted as successful (inserted), duplicate (the insert
   * returned False) or not found (a falsy payload).
   */
  function IdStep(competitionId: int, a: Acc, net: Network, hash: Hasher, raises: int -> bool): (r: Option<Acc>)
    requires a.session.table.Valid()
    ensures r.None? <==> ScoreboardFetch(competitionId, net).Raised?
    ensures r.Some? ==>
              var t, t' := a.session.table, r.value.session.table;
              t'.Valid() && Grows(t, t') &&
              r.value.counts.failed == a.counts.failed &&
              r.value.counts.Handled() == a.counts.Handled() + 1 &&
              a.counts.successful <= r.value.counts.successful <= a.counts.successful + 1 &&
              t'.RowCount() == t.RowCount() + (r.value.counts.successful - a.counts.successful)
    ensures r.Some? ==> (r.value.session.aborted <==> a.session.aborted || FailingInsert(competitionId, net, raises))
    ensures r.Some? && a.session.aborted ==>
              r.value.session == a.session && r.value.counts.successful == a.counts.successful
  {
    var f := ScoreboardFetch(competitionId, net);
    if f.Raised? then None
    else if Truthy(f.data) then
      var ins := InsertInSession(a.session, competitionId, f.data, hash, raises(competitionId));
      var c := a.counts;
      Some(Acc(ins.1, if ins.0 then c.(successful := c.successful + 1) else c.(duplicate := c.duplicate + 1)))
    else
      Some(Acc(a.session, a.counts.(notFound := a.counts.notFound + 1)))
  }

  /** Where a worker ended: whether an exception escaped, its state, the ids fetched and the pauses taken. */
  datatype Tally = Tally(raised: bool, acc: Acc, visited: seq<int>, waits: seq<nat>)

  /** `process_scoreboard_batch` over `ids`, from `a`. */
  function WorkerRun(ids: seq<int>, a: Acc, net: Network, hash: Hasher, raises: int -> bool): (r: Tally)
    requires a.session.table.Valid()
    ensures r.acc.session.table.Valid()
    decreases |ids|
  {
    if ids == [] then Tally(false, a, [], [])
    else
      var o := IdStep(ids[0], a, net, hash, raises);
      if o.None? then Tally(true, a, [ids[0]], IdWaits(ids[0], net))
      else
        var r := WorkerRun(ids[1..], o.value, net, hash, raises);
        Tally(r.raised, r.acc, [ids[0]] + r.visited, IdWaits(ids[0], net) + r.waits)
  }

  /** A worker fetches a prefix of its ids, all of them unless one raised, and pauses as they ask. */
  lemma {:induction false} WorkerRunVisits(ids: seq<int>, a: Acc, net: Network, hash: Hasher, raises: int -> bool)
    requires a.session.table.Valid()
    ensures var r := WorkerRun(ids, a, net, hash, raises);
            |r.visited| <= |ids| && r.visited == ids[..|r.visited|] &&
            (r.raised ==> 0 < |r.visited|) && (!r.raised ==> r.visited == ids) &&
            r.waits == WaitsOf(r.visited, net)
    decreases |ids|
  {
    if ids != [] {
      var o := IdStep(ids[0], a, net, hash, raises);
      if o.Some? {
        WorkerRunVisits(ids[1..], o.value, net, hash, raises);
        var r := WorkerRun(ids[1..], o.value, net, hash, raises);
        assert ([ids[0]] + r.visited)[1..] == r.visited;
        assert ids[..|r.visited| + 1] == [ids[0]] + ids[1..][..|r.visited|];
      } else {
        assert [ids[0]][1..] == [];
      }
    }
  }

  /**
   * A worker's counters: nothing is `failed` inside it, every id it fetched
   * without a raise is handled once, and the table grows by exactly the
   * inserts counted successful.
   */
  lemma {:induction false} WorkerRunCounts(ids: seq<int>, a: Acc, net: Network, hash: Hasher, raises: int -> bool)
    requires a.session.table.Valid()
    ensures var r := WorkerRun(ids, a, net, hash, raises);
            var t, t' := a.session.table, r.acc.session.table;
            Grows(t, t') && r.acc.counts.failed == a.counts.failed &&
            r.acc.counts.successful >= a.counts.successful &&
            r.acc.counts.Handled() + (if r.raised then 1 else 0) == a.counts.Handled() + |r.visited| &&
            t'.RowCount() == t.RowCount() + (r.acc.counts.successful - a.counts.successful)
    decreases |ids|
  {
    if ids != [] {
      var o := IdStep(ids[0], a, net, hash, raises);
      if o.Some? {
        WorkerRunCounts(ids[1..], o.value, net, hash, raises);
        GrowsTransitive(a.session.table, o.value.session.table, WorkerRun(ids[1..], o.value, net, hash, raises).acc.session.table);
      }
    }
  }

  /**
   * The worker leaves the transaction aborted exactly when it was already,
   * or one of the ids it fetched had a failing INSERT; once aborted, the
   * table stays as it is and nothing more is counted successful.
   */
  lemma {:induction false} WorkerRunAborts(ids: seq<int>, a: Acc, net: Network, hash: Hasher, raises: int -> bool)
    requires a.session.table.Valid()
    ensures var r := WorkerRun(ids, a, net, hash, raises);
            (r.acc.session.aborted <==> a.session.aborted || AnyFailing(r.visited, net, raises)) &&
            (a.session.aborted ==> r.acc.session == a.session && r.acc.counts.successful == a.counts.successful)
    decreases |ids|
  {
    if ids != [] {
      var o := IdStep(ids[0], a, net, hash, raises);
      if o.Some? {
        WorkerRunAborts(ids[1..], o.value, net, hash, raises);
        var r := WorkerRun(ids[1..], o.value, net, hash, raises);
        AnyFailingAppend([ids[0]], r.visited, net, raises);
        AnyFailingSingle(ids[0], net, raises);
      } else {
        AnyFailingSingle(ids[0], net, raises);
      }
    }
  }

  /** One id of the worker loop: the fetch, then the count. */
  method ProcessId(competitionId: int, a: Acc, net: Network, hash: Hasher, raises: int -> bool)
    returns (raised: bool, a': Acc, waits: seq<nat>)
    requires a.session.table.Valid()
    ensures var o := IdStep(competitionId, a, net, hash, raises);
            (raised <==> o.None?) && a' == (if o.None? then a else o.value) &&
            waits == IdWaits(competitionId, net)
  {
    var data, _, fetchWaits := FetchScoreboard(competitionId, net);
    waits := [IdPauseMs] + fetchWaits;
    raised, a' := false, a;
    if data.Raised? {
      raised := true;
    } else if Truthy(data.data) {
      var ins := InsertInSession(a.session, competitionId, data.data, hash, raises(competitionId));
      var c := a.counts;
      if ins.0 {
        a' := Acc(ins.1, c.(successful := c.successful + 1));
      } else {
        a' := Acc(ins.1, c.(duplicate := c.duplicate + 1));
      }
    } else {
      a' := Acc(a.session, a.counts.(notFound := a.counts.notFound + 1));
    }
  }

  /**
   * What `process_scoreboard_batch` does from the shared session `s0`: it
   * fetches a prefix of its ids, all of them unless an exception escaped;
   * counts each id it handled once; adds exactly the rows counted
   * successful; leaves the transaction aborted exactly when it was or an
   * INSERT failed, and adds nothing on an aborted one.
   */
  lemma WorkerFacts(ids: seq<int>, s0: Session, net: Network, hash: Hasher, raises: int -> bool)
    requires s0.table.Valid()
    ensures var r := WorkerRun(ids, Acc(s0, Counts(0, 0, 0, 0)), net, hash, raises);
            var s, c := r.acc.session, r.acc.counts;
            Grows(s0.table, s.table) &&
            (!r.raised ==> r.visited == ids && c.failed == 0 && c.Handled() == |ids| &&
                           s.table.RowCount() == s0.table.RowCount() + c.successful) &&
            (r.raised ==> 0 < |r.visited| <= |ids| && r.visited == ids[..|r.visited|]) &&
            s.table.RowCount() >= s0.table.RowCount() &&
            (s.aborted <==> s0.aborted || AnyFailing(r.visited, net, raises)) &&
            (s0.aborted ==> s == s0 && c.successful == 0) &&
            r.waits == WaitsOf(r.visited, net)
  {
    var a0 := Acc(s0, Counts(0, 0, 0, 0));
    WorkerRunVisits(ids, a0, net, hash, raises);
    WorkerRunCounts(ids, a0, net, hash, raises);
    WorkerRunAborts(ids, a0, net, hash, raises);
  }

  /**
   * `process_scoreboard_batch(ids, session, conn)` on the shared session
   * `s0`: the loop is the reference `WorkerRun`. Every id is fetched and
   * counted; None when an exception escapes the fetch, as it would escape
   * the worker. After an INSERT fails, every later one fails as well, so
   * nothing more is added; `s.aborted` says whether the transaction is
   * aborted now.
   */
  method ProcessBatch(ids: seq<int>, s0: Session, net: Network, hash: Hasher, raises: int -> bool)
    returns (counts: Option<Counts>, s: Session, visited: seq<int>, waits: seq<nat>)
    requires s0.table.Valid()
    ensures var r := WorkerRun(ids, Acc(s0, Counts(0, 0, 0, 0)), net, hash, raises);
            s == r.acc.session && visited == r.visited && waits == r.waits &&
            counts == (if r.raised then None else Some(r.acc.counts))
  {
    var a0 := Acc(s0, Counts(0, 0, 0, 0));
    var a := a0;
    waits := [];
    var i := 0;
    assert ids[0..] == ids && ids[..0] == [];
    while i < |ids|
      invariant i <= |ids| && a.session.table.Valid()
      invariant Resumes(ids, i, a0, a, waits, net, hash, raises)
    {
      var raised, a', w := ProcessId(ids[i], a, net, hash, raises);
      if raised {
        ResumesRaise(ids, i, a0, a, waits, net, hash, raises);
        return None, a.session, ids[..i + 1], waits + w;
      }
      ResumesStep(ids, i, a0, a, waits, net, hash, raises);
      a, waits := a', waits + w;
      i := i + 1;
    }
    assert ids[i..] == [] && ids[..i] == ids;
    return Some(a.counts), a.session, ids, waits;
  }

  /** After `i` ids the worker loop is at `a`, having paused `waits`: what is left of the run is `WorkerRun(ids[i..], a)`. */
  predicate Resumes(ids: seq<int>, i: nat, a0: Acc, a: Acc, waits: seq<nat>, net: Network, hash: Hasher, raises: int -> bool)
    requires i <= |ids| && a0.session.table.Valid() && a.session.table.Valid()
  {
    var r := WorkerRun(ids[i..], a, net, hash, raises);
    WorkerRun(ids, a0, net, hash, raises) == Tally(r.raised, r.acc, ids[..i] + r.visited, waits + r.waits)
  }

  lemma ResumesStep(ids: seq<int>, i: nat, a0: Acc, a: Acc, waits: seq<nat>, net: Network, hash: Hasher, raises: int -> bool)
    requires i < |ids| && a0.session.table.Valid() && a.session.table.Valid()
    requires Resumes(ids, i, a0, a, waits, net, hash, raises)
    requires IdStep(ids[i], a, net, hash, raises).Some?
    ensures Resumes(ids, i + 1, a0, IdStep(ids[i], a, net, hash, raises).value, waits + IdWaits(ids[i], net), net, hash, raises)
  {
    var o := IdStep(ids[i], a, net, hash, raises).value;
    var r := WorkerRun(ids[i + 1..], o, net, hash, raises);
    WorkerRunAt(ids, i, a, net, hash, raises);
    SnocJoin(ids, i, r.visited);
    JoinAssoc(waits, IdWaits(ids[i], net), r.waits);
  }

  /** `WorkerRun(ids[i..], a)` unfolded once, when the `i`-th id does not raise. */
  lemma WorkerRunAt(ids: seq<int>, i: nat, a: Acc, net: Network, hash: Hasher, raises: int -> bool)
    requires i < |ids| && a.session.table.Valid() && IdStep(ids[i], a, net, hash, raises).Some?
    ensures var r := WorkerRun(ids[i + 1..], IdStep(ids[i], a, net, hash, raises).value, net, hash, raises);
            WorkerRun(ids[i..], a, net, hash, raises) == Tally(r.raised, r.acc, [ids[i]] + r.visited, IdWaits(ids[i], net) + r.waits)
  {
    assert ids[i..][0] == ids[i] && ids[i..][1..] == ids[i + 1..];
  }

  lemma SnocJoin(ids: seq<int>, i: nat, rest: seq<int>)
    requires i < |ids|
    ensures ids[..i] + ([ids[i]] + rest) == ids[..i + 1] + rest
  {
    assert ids[..i + 1] == ids[..i] + [ids[i]];
  }

  lemma JoinAssoc(a: seq<nat>, b: seq<nat>, c: seq<nat>)
    ensures a + (b + c) == (a + b) + c
  {
  }

  lemma ResumesRaise(ids: seq<int>, i: nat, a0: Acc, a: Acc, waits: seq<nat>, net: Network, hash: Hasher, raises: int -> bool)
    requires i < |ids| && a0.session.table.Valid() && a.session.table.Valid()
    requires Resumes(ids, i, a0, a, waits, net, hash, raises)
    requires IdStep(ids[i], a, net, hash, raises).None?
    ensures WorkerRun(ids, a0, net, hash, raises) == Tally(true, a, ids[..i + 1], waits + IdWaits(ids[i], net))
  {
    WorkerRunRaiseAt(ids, i, a, net, hash, raises);
    SnocJoin(ids, i, []);
    assert ids[..i] + [ids[i]] == ids[..i + 1];
  }

  /** `WorkerRun(ids[i..], a)` stops at once when the `i`-th id raises. */
  lemma WorkerRunRaiseAt(ids: seq<int>, i: nat, a: Acc, net: Network, hash: Hasher, raises: int -> bool)
    requires i < |ids| && a.session.table.Valid() && IdStep(ids[i], a, net, hash, raises).None?
    ensures WorkerRun(ids[i..], a, net, hash, raises) == Tally(true, a, [ids[i]], IdWaits(ids[i], net))
  {
    assert ids[i..][0] == ids[i];
  }

  // ---------------------------------------------------------------------------
  // main
  // ---------------------------------------------------------------------------

  /** `check_existing_scoreboards`: the integer match numbers already stored. */
  function ExistingIds(t: RawTable): set<int>
  {
    set id | id in t.rows && t.rows[id].matchNumber.JInt? :: t.rows[id].matchNumber.i
  }

  /** `[cid for cid in all_ids if cid not in existing]`. */
  function NewIds(all: seq<int>, existing: set<int>): (r: seq<int>)
    ensures |r| <= |all|
    ensures forall x :: x in r <==> x in all && x !in existing
  {
    if all == [] then []
    else
      var init := NewIds(all[..|all| - 1], existing);
      var x := all[|all| - 1];
      assert forall y :: y in all <==> y in all[..|all| - 1] || y == x by {
        assert all == all[..|all| - 1] + [x];
      }
      if x in existing then init else init + [x]
  }

  /** Where in `all` each new id sits. */
  function NewIdPositions(all: seq<int>, existing: set<int>): (p: seq<nat>)
    ensures |p| == |NewIds(all, existing)|
    ensures forall k :: 0 <= k < |p| ==> p[k] < |all| && all[p[k]] == NewIds(all, existing)[k]
    ensures forall k, l :: 0 <= k < l < |p| ==> p[k] < p[l]
  {
    if all == [] then []
    else
      var init := NewIdPositions(all[..|all| - 1], existing);
      if all[|all| - 1] in existing then init else init + [|all| - 1]
  }

  /** The new ids keep the order they had: they are a subsequence of all ids. */
  lemma NewIdsInOrder(all: seq<int>, existing: set<int>)
    ensures exists p: seq<nat> :: |p| == |NewIds(all, existing)| &&
              (forall k :: 0 <= k < |p| ==> p[k] < |all| && all[p[k]] == NewIds(all, existing)[k]) &&
              (forall k, l :: 0 <= k < l < |p| ==> p[k] < p[l])
  {
    var p := NewIdPositions(all, existing);
  }

  /**
   * How `main` ended. `kept` counts the successful inserts of the batches
   * whose commit went through; `waits` are the pauses the workers took.
   */
  datatype Run =
    | NoCompetitions
    | NothingNew
    | Completed(totals: Counts, visited: seq<int>, failedWorkers: nat, kept: nat, waits: seq<nat>)

  /** `max(1, len(batch) // MAX_WORKERS)`. */
  function WorkerSliceSize(batchLen: nat): (w: nat)
    ensures w >= 1
  {
    if batchLen / MaxWorkers >= 1 then batchLen / MaxWorkers else 1
  }

  /**
   * What the workers of one batch have accounted for after the slices
   * `ps[..k]`, on the session that started as `s0`: every worker that raised
   * adds 1 to `failed`; without one the slices were all visited and
   * handled; the transaction is aborted exactly when it started so or an id
   * fetched had a failing INSERT.
   */
  predicate SlicesSummed(ps: seq<seq<int>>, k: nat, s0: Session, totals0: Counts, net: Network, raises: int -> bool,
                         s: Session, totals: Counts, visited: seq<int>, failedWorkers: nat, waits: seq<nat>)
    requires k <= |ps|
  {
    s.table.Valid() && Grows(s0.table, s.table) &&
    totals.failed == totals0.failed + failedWorkers &&
    totals.successful >= totals0.successful &&
    totals.Handled() <= totals0.Handled() + |Concat(ps[..k])| &&
    (failedWorkers == 0 ==> visited == Concat(ps[..k]) && totals.Handled() == totals0.Handled() + |visited|) &&
    s.table.RowCount() >= s0.table.RowCount() + (totals.successful - totals0.successful) &&
    (s.aborted <==> s0.aborted || AnyFailing(visited, net, raises)) &&
    waits == WaitsOf(visited, net)
  }

  /** One worker of a batch: its slice processed on the shared session, its result added to the totals. */
  method RunSlice(slices: seq<seq<int>>, k: nat, s0: Session, totals0: Counts, net: Network, hash: Hasher, raises: int -> bool,
                  s: Session, totals: Counts, visited: seq<int>, failedWorkers: nat, waits: seq<nat>)
    returns (s': Session, totals': Counts, visited': seq<int>, failedWorkers': nat, waits': seq<nat>)
    requires k < |slices| && SlicesSummed(slices, k, s0, totals0, net, raises, s, totals, visited, failedWorkers, waits)
    ensures SlicesSummed(slices, k + 1, s0, totals0, net, raises, s', totals', visited', failedWorkers', waits')
  {
    var result, seen, w;
    result, s', seen, w := ProcessBatch(slices[k], s, net, hash, raises);
    WorkerFacts(slices[k], s, net, hash, raises);
    if result.Some? {
      totals', failedWorkers' := totals.Plus(result.value), failedWorkers;
    } else {
      totals', failedWorkers' := totals.(failed := totals.failed + 1), failedWorkers + 1;
    }
    visited', waits' := visited + seen, waits + w;
    if result.Some? {
      SliceDone(slices, k, s0, totals0, net, raises, s, totals, visited, failedWorkers, waits, result.value, s', w);
    } else {
      SliceRaised(slices, k, s0, totals0, net, raises, s, totals, visited, failedWorkers, waits, s', seen, w);
    }
  }

  /** The session after one more worker, from the ids it visited. */
  lemma SessionAfter(s0: Session, s: Session, s': Session, visited: seq<int>, seen: seq<int>, net: Network, raises: int -> bool,
                     waits: seq<nat>, w: seq<nat>)
    requires s.aborted <==> s0.aborted || AnyFailing(visited, net, raises)
    requires s'.aborted <==> s.aborted || AnyFailing(seen, net, raises)
    requires waits == WaitsOf(visited, net) && w == WaitsOf(seen, net)
    requires s.table.Valid() && s'.table.Valid() && Grows(s0.table, s.table) && Grows(s.table, s'.table)
    ensures s'.aborted <==> s0.aborted || AnyFailing(visited + seen, net, raises)
    ensures waits + w == WaitsOf(visited + seen, net)
    ensures Grows(s0.table, s'.table)
  {
    AnyFailingAppend(visited, seen, net, raises);
    WaitsOfAppend(visited, seen, net);
    GrowsTransitive(s0.table, s.table, s'.table);
  }

  /** The sums after one more worker that went through its whole slice. */
  lemma SliceDone(slices: seq<seq<int>>, k: nat, s0: Session, totals0: Counts, net: Network, raises: int -> bool,
                  s: Session, totals: Counts, visited: seq<int>, failedWorkers: nat, waits: seq<nat>,
                  c: Counts, s': Session, w: seq<nat>)
    requires k < |slices| && SlicesSummed(slices, k, s0, totals0, net, raises, s, totals, visited, failedWorkers, waits)
    requires s'.table.Valid() && Grows(s.table, s'.table)
    requires c.failed == 0 && c.Handled() == |slices[k]| && s'.table.RowCount() == s.table.RowCount() + c.successful
    requires s'.aborted <==> s.aborted || AnyFailing(slices[k], net, raises)
    requires w == WaitsOf(slices[k], net)
    ensures SlicesSummed(slices, k + 1, s0, totals0, net, raises, s', totals.Plus(c), visited + slices[k], failedWorkers, waits + w)
  {
    ConcatSnoc(slices, k);
    SessionAfter(s0, s, s', visited, slices[k], net, raises, waits, w);
    var t := totals.Plus(c);
    assert t.Handled() == totals.Handled() + |slices[k]|;
    assert t.Handled() <= totals0.Handled() + |Concat(slices[..k + 1])|;
  }

  /** The sums after one more worker whose fetch raised part way through its slice. */
  lemma SliceRaised(slices: seq<seq<int>>, k: nat, s0: Session, totals0: Counts, net: Network, raises: int -> bool,
                    s: Session, totals: Counts, visited: seq<int>, failedWorkers: nat, waits: seq<nat>,
                    s': Session, seen: seq<int>, w: seq<nat>)
    requires k < |slices| && SlicesSummed(slices, k, s0, totals0, net, raises, s, totals, visited, failedWorkers, waits)
    requires s'.table.Valid() && Grows(s.table, s'.table) && s'.table.RowCount() >= s.table.RowCount()
    requires s'.aborted <==> s.aborted || AnyFailing(seen, net, raises)
    requires w == WaitsOf(seen, net)
    ensures SlicesSummed(slices, k + 1, s0, totals0, net, raises, s', totals.(failed := totals.failed + 1), visited + seen,
                         failedWorkers + 1, waits + w)
  {
    ConcatSnoc(slices, k);
    SessionAfter(s0, s, s', visited, seen, net, raises, waits, w);
  }

  /**
   * One batch of `main`, from the committed table `t0`: split among workers
   * that share one transaction, each worker's result added to the totals (a
   * worker that raised adds 1 to `failed`), then `conn.commit()`. When an
   * INSERT of the batch failed, the transaction is aborted and that commit
   * rolls the whole batch back (`rolledBack`); otherwise it keeps every row
   * the batch added.
   */
  method RunBatch(batch: seq<int>, t0: RawTable, net: Network, hash: Hasher, raises: int -> bool, totals0: Counts)
    returns (totals: Counts, t: RawTable, visited: seq<int>, failedWorkers: nat, rolledBack: bool, waits: seq<nat>)
    requires t0.Valid()
    ensures t.Valid() && Grows(t0, t)
    ensures totals.failed == totals0.failed + failedWorkers
    ensures totals.Handled() <= totals0.Handled() + |batch|
    ensures failedWorkers == 0 ==> visited == batch && totals.Handled() == totals0.Handled() + |batch|
    ensures totals.successful >= totals0.successful
    ensures rolledBack <==> AnyFailing(visited, net, raises)
    ensures rolledBack ==> t == t0
    ensures !rolledBack ==> t.RowCount() >= t0.RowCount() + (totals.successful - totals0.successful)
    ensures waits == WaitsOf(visited, net)
  {
    var slices := Chunks(batch, WorkerSliceSize(|batch|));
    ChunksCover(batch, WorkerSliceSize(|batch|));
    var s0 := Session(t0, false);
    var s := s0;
    totals, visited, failedWorkers, waits := totals0, [], 0, [];
    var k := 0;
    while k < |slices|
      invariant k <= |slices|
      invariant SlicesSummed(slices, k, s0, totals0, net, raises, s, totals, visited, failedWorkers, waits)
    {
      s, totals, visited, failedWorkers, waits := RunSlice(slices, k, s0, totals0, net, hash, raises, s, totals, visited, failedWorkers, waits);
      k := k + 1;
    }
    assert slices[..k] == slices;
    rolledBack := s.aborted;
    t := if rolledBack then t0 else s.table;
  }

  /**
   * What the batch loop of `main` has accounted for after `ps[..b]`, from
   * the committed table `t0`: `kept` counts the successful inserts of the
   * batches that committed, and equals all successful inserts when no
   * INSERT failed.
   */
  predicate Summed(ps: seq<seq<int>>, b: nat, t0: RawTable, totals0: Counts, net: Network, raises: int -> bool,
                   t: RawTable, totals: Counts, visited: seq<int>, failedWorkers: nat, kept: nat, waits: seq<nat>)
    requires b <= |ps|
  {
    t.Valid() && Grows(t0, t) &&
    totals.failed == totals0.failed + failedWorkers &&
    totals.successful >= totals0.successful &&
    totals.Handled() <= totals0.Handled() + |Concat(ps[..b])| &&
    (failedWorkers == 0 ==> visited == Concat(ps[..b]) && totals.Handled() == totals0.Handled() + |visited|) &&
    kept <= totals.successful - totals0.successful &&
    t.RowCount() >= t0.RowCount() + kept &&
    (!AnyFailing(visited, net, raises) ==> kept == totals.successful - totals0.successful) &&
    waits == WaitsOf(visited, net)
  }

  /** One batch of `main`, its totals carried on. */
  method RunBatchAt(batches: seq<seq<int>>, b: nat, t0: RawTable, totals0: Counts, net: Network, hash: Hasher, raises: int -> bool,
                    t: RawTable, totals: Counts, visited: seq<int>, failedWorkers: nat, kept: nat, waits: seq<nat>)
    returns (t': RawTable, totals': Counts, visited': seq<int>, failedWorkers': nat, kept': nat, waits': seq<nat>)
    requires b < |batches| && Summed(batches, b, t0, totals0, net, raises, t, totals, visited, failedWorkers, kept, waits)
    ensures Summed(batches, b + 1, t0, totals0, net, raises, t', totals', visited', failedWorkers', kept', waits')
  {
    var seen, failed, rolledBack, w;
    totals', t', seen, failed, rolledBack, w := RunBatch(batches[b], t, net, hash, raises, totals);
    GrowsTransitive(t0, t, t');
    ConcatSnoc(batches, b);
    visited', waits' := visited + seen, waits + w;
    failedWorkers' := failedWorkers + failed;
    kept' := kept + if rolledBack then 0 else totals'.successful - totals.successful;
    AnyFailingAppend(visited, seen, net, raises);
    WaitsOfAppend(visited, seen, net);
  }

  /**
   * `main()`: `allIds` is what `get_competition_ids` returns; only ids whose
   * scoreboard is not stored yet are fetched, in batches of `BatchSize`,
   * each committed on its own. A batch in which an INSERT failed is rolled
   * back whole, so only the `kept` inserts of the other batches stay.
   */
  method IngestScoreboards(allIds: seq<int>, t0: RawTable, net: Network, hash: Hasher, raises: int -> bool)
    returns (run: Run, t: RawTable)
    requires t0.Valid()
    ensures t.Valid() && Grows(t0, t)
    ensures allIds == [] <==> run == NoCompetitions
    ensures run.NothingNew? <==> allIds != [] && NewIds(allIds, ExistingIds(t0)) == []
    ensures run.Completed? ==>
              var newIds := NewIds(allIds, ExistingIds(t0));
              run.totals.failed == run.failedWorkers &&
              run.totals.Handled() <= |newIds| &&
              (run.failedWorkers == 0 ==> run.visited == newIds && run.totals.Handled() == |newIds|) &&
              run.kept <= run.totals.successful &&
              t.RowCount() >= t0.RowCount() + run.kept &&
              (!AnyFailing(run.visited, net, raises) ==> run.kept == run.totals.successful) &&
              run.waits == WaitsOf(run.visited, net)
  {
    t := t0;
    if allIds == [] {
      return NoCompetitions, t;
    }
    var newIds := NewIds(allIds, ExistingIds(t0));
    if newIds == [] {
      return NothingNew, t;
    }
    var batches := Chunks(newIds, BatchSize);
    ChunksCover(newIds, BatchSize);
    var totals := Counts(0, 0, 0, 0);
    var visited: seq<int> := [];
    var waits: seq<nat> := [];
    var failedWorkers, kept := 0, 0;
    var b := 0;
    while b < |batches|
      invariant b <= |batches|
      invariant Summed(batches, b, t0, Counts(0, 0, 0, 0), net, raises, t, totals, visited, failedWorkers, kept, waits)
    {
      t, totals, visited, failedWorkers, kept, waits :=
        RunBatchAt(batches, b, t0, Counts(0, 0, 0, 0), net, hash, raises, t, totals, visited, failedWorkers, kept, waits);
      b := b + 1;
    }
    assert batches[..b] == batches;
    return Completed(totals, visited, failedWorkers, kept, waits), t;
  }
}
