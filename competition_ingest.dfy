/**
 * `scripts/bronze/concurrent_competition_ingest.py`: learn the page count
 * from page 1, fetch pages 1..N of the competition listing, and store each
 * page once by its canonical hash in `raw_competition`.
 */
module CompetitionIngest {
  import opened Wrappers
  import opened Json
  import opened Http
  import opened Tables
  import opened RawStore
  import opened FixedRetry
  import opened Partition
  import opened PyText
  import Canonical

  const BaseUrl: string := "https://virtual.sssfonline.com/api/shot/SASP/competitions"

  /** `f"{BASE_URL}?type=S&page={page}"` for the text of `page`. */
  function PageUrl(page: string): string
  {
    BaseUrl + "?type=S&page=" + page
  }

  /** `str(v)` of a JSON value, exact for scalars (containers get their JSON text). */
  function PyStr(v: Json): string
  {
    match v
    case JNull => "None"
    case JBool(b) => if b then "True" else "False"
    case JInt(i) => IntToString(i)
    case JStr(s) => s
    case _ => Canonical.CanonicalText(v)
  }

  /**
   * The log line after a 200 computes `len(data.get('data', []))`, which
   * raises unless `data` is a dict and that value has a length.
   */
  predicate LogLineSucceeds(data: Json)
  {
    data.JObj? && HasLen(GetOr(data, "data", JArr([])))
  }

  /** `fetch_competition_page(page_num, session)`. */
  method FetchCompetitionPage(page: int, net: Network) returns (result: Fetched, requests: nat, waits: seq<nat>)
    ensures 1 <= requests <= MaxRetries
    ensures forall k :: 0 <= k < requests - 1 ==> !Decisive(net(PageUrl(IntToString(page)), k))
    ensures var last := net(PageUrl(IntToString(page)), requests - 1);
            (Decisive(last) ==> result == Verdict(last, LogLineSucceeds)) &&
            (!Decisive(last) ==> requests == MaxRetries && result == Returned(JNull))
    ensures waits == Backoffs(requests - 1)
    ensures result.Returned? && result.data != JNull ==> result.data.JObj?
    ensures result == PageFetch(page, net)
  {
    result, requests, waits := Fetch(PageUrl(IntToString(page)), net, LogLineSucceeds);
  }

  /**
   * `page_data.get('meta', {}).get('current_page', 1)`: None when that raises
   * (the payload, or its `meta`, is not a dict).
   */
  function CurrentPage(data: Json): (p: Option<Json>)
    ensures p.Some? <==> data.JObj? && (!HasKey(data, "meta") || Get(data, "meta").JObj?)
    ensures data.JObj? && !HasKey(data, "meta") ==> p == Some(JInt(1))
  {
    if !data.JObj? then None
    else
      var meta := GetOr(data, "meta", JObj([]));
      if meta.JObj? then Some(GetOr(meta, "current_page", JInt(1))) else None
  }

  /** What `fetch_competition_page` hands back for `page`. */
  function PageFetch(page: int, net: Network): Fetched
  {
    Outcome(PageUrl(IntToString(page)), net, LogLineSucceeds, 0)
  }

  /**
   * `insert_competition_data(conn, page_data)`: None when the page number
   * lookup raises (before the `try`); otherwise 1 if the page's canonical hash
   * was new and the row was added, 0 if it was a duplicate or the insert
   * failed inside the `try`.
   */
  function InsertCompetition(t: RawTable, data: Json, hash: Hasher, raises: bool): (r: Option<(nat, RawTable)>)
    requires t.Valid()
    ensures r.Some? <==> CurrentPage(data).Some?
    ensures r.Some? ==> r.value.1.Valid() && Grows(t, r.value.1)
    ensures r.Some? ==> (r.value.0 == 1 <==> !raises && CanonicalHash(hash, data) !in t.index)
    ensures r.Some? ==> r.value.0 <= 1
    ensures r.Some? && r.value.0 == 1 ==>
              var page := CurrentPage(data).value;
              var h := CanonicalHash(hash, data);
              h in r.value.1.index && r.value.1.RowCount() == t.RowCount() + 1 &&
              r.value.1.rows[r.value.1.index[h]] == RawRow(page, data, PageUrl(PyStr(page)), h)
    ensures r.Some? && r.value.0 == 0 ==> r.value.1.rows == t.rows && r.value.1.index == t.index
  {
    var page := CurrentPage(data);
    if page.None? then None
    else
      var row := RawRow(page.value, data, PageUrl(PyStr(page.value)), CanonicalHash(hash, data));
      StoreRawGrows(t, row, raises);
      var (ok, t') := StoreRaw(t, row, raises);
      Some((if ok then 1 else 0, t'))
  }

  /**
   * `discover_total_pages()` given the answer to its GET of page 1:
   * `meta.last_page` (default 1) of a 200, and 1 when the status is not 200
   * or anything raises on the way.
   */
  function DiscoverTotalPages(r: Response): (n: Json)
    ensures !IsOk(r) ==> n == JInt(1)
    ensures IsOk(r) && r.body.Parsed? && r.body.json.JObj? && !HasKey(r.body.json, "meta") ==> n == JInt(1)
    ensures (IsOk(r) && r.body.Parsed? && r.body.json.JObj? && HasKey(r.body.json, "meta") &&
             HasKey(Get(r.body.json, "meta"), "last_page")) ==> n == Get(Get(r.body.json, "meta"), "last_page")
  {
    if IsOk(r) && r.body.Parsed? && r.body.json.JObj? then
      var meta := GetOr(r.body.json, "meta", JObj([]));
      if meta.JObj? then GetOr(meta, "last_page", JInt(1)) else JInt(1)
    else JInt(1)
  }

  /**
   * `total_pages <= 0` and `range(1, total_pages + 1)` on the discovered value:
   * an int (a bool counts as 0 or 1) gives the page count, anything else
   * raises a `TypeError` that ends the script.
   */
  function PageCount(n: Json): Option<int>
  {
    match n
    case JInt(i) => Some(i)
    case JBool(b) => Some(if b then 1 else 0)
    case _ => None
  }

  datatype Run =
    | Crashed
    | Aborted
    | Completed(successfulPages: nat, failedPages: nat, requested: seq<int>, rolledBack: bool)

  /**
   * A page `main` counts as successful: its fetch returned a truthy payload
   * and the page number lookup of `insert_competition_data` did not raise.
   */
  predicate PageOk(page: int, net: Network)
  {
    var f := PageFetch(page, net);
    f.Returned? && Truthy(f.data) && CurrentPage(f.data).Some?
  }

  /** The canonical hash of the payload fetched for `page`. */
  function PageHash(page: int, net: Network, hash: Hasher): string
    requires PageFetch(page, net).Returned?
  {
    CanonicalHash(hash, PageFetch(page, net).data)
  }

  /** A successful page whose INSERT fails, aborting the transaction. */
  predicate FailingPage(page: int, net: Network, raises: int -> bool)
  {
    PageOk(page, net) && raises(page)
  }

  /** The successful pages among `pages`. */
  function OkCount(pages: seq<int>, net: Network): (n: nat)
    ensures n <= |pages|
  {
    if pages == [] then 0
    else OkCount(pages[..|pages| - 1], net) + (if PageOk(pages[|pages| - 1], net) then 1 else 0)
  }

  predicate AnyFailingPage(pages: seq<int>, net: Network, raises: int -> bool)
  {
    exists k :: 0 <= k < |pages| && FailingPage(pages[k], net, raises)
  }

  lemma AnyFailingPageSnoc(pages: seq<int>, page: int, net: Network, raises: int -> bool)
    ensures AnyFailingPage(pages + [page], net, raises) <==> AnyFailingPage(pages, net, raises) || FailingPage(page, net, raises)
  {
    var ps := pages + [page];
    if AnyFailingPage(pages, net, raises) {
      var k :| 0 <= k < |pages| && FailingPage(pages[k], net, raises);
      assert ps[k] == pages[k];
    }
    if FailingPage(page, net, raises) {
      assert ps[|pages|] == page;
    }
    if AnyFailingPage(ps, net, raises) {
      var k :| 0 <= k < |ps| && FailingPage(ps[k], net, raises);
      if k < |pages| {
        assert ps[k] == pages[k];
      }
    }
  }

  /**
   * The handling of one page in `main` on the open transaction `s0`: the
   * page succeeds exactly when its fetch returned a truthy payload whose
   * page number lookup does not raise, duplicates and failed INSERTs
   * included. A failed INSERT is swallowed and leaves the transaction
   * aborted; on an aborted transaction nothing is stored. Otherwise the
   * payload is stored under its canonical hash, as a new row when the hash
   * was new.
   */
  method HandlePage(page: int, s0: Session, net: Network, hash: Hasher, raises: bool)
    returns (ok: bool, s: Session)
    requires s0.table.Valid()
    ensures s.table.Valid() && Grows(s0.table, s.table) && s0.table.index.Keys <= s.table.index.Keys
    ensures ok <==> PageOk(page, net)
    ensures s.aborted <==> s0.aborted || (ok && raises)
    ensures ok && !s.aborted ==> PageHash(page, net, hash) in s.table.index
    ensures s.table.RowCount() <= s0.table.RowCount() + (if ok then 1 else 0)
    ensures var stores := ok && !s.aborted && PageHash(page, net, hash) !in s0.table.index;
            (stores ==> var data := PageFetch(page, net).data;
                        var h := PageHash(page, net, hash);
                        s.table.RowCount() == s0.table.RowCount() + 1 &&
                        s.table.rows[s.table.index[h]] == RawRow(CurrentPage(data).value, data, PageUrl(PyStr(CurrentPage(data).value)), h)) &&
            (!stores ==> s.table.rows == s0.table.rows && s.table.index == s0.table.index)
  {
    s := s0;
    var data, _, _ := FetchCompetitionPage(page, net);
    if data.Raised? || !Truthy(data.data) {
      return false, s;
    }
    var inserted := InsertCompetition(s.table, data.data, hash, s.aborted || raises);
    if inserted.None? {
      return false, s;
    }
    s := Session(inserted.value.1, s.aborted || raises);
    return true, s;
  }

  /**
   * `main()`: `discovery` is the answer to `discover_total_pages`' GET. Every
   * page 1..N is requested once, and each counts as successful or failed.
   * All pages share one transaction, committed once at the end: when an
   * INSERT failed, that commit is a rollback and nothing is stored;
   * otherwise every successful page's payload is stored.
   */
  method IngestAllPages(discovery: Response, t0: RawTable, net: Network, hash: Hasher, raises: int -> bool)
    returns (run: Run, t: RawTable)
    requires t0.Valid()
    ensures t.Valid() && Grows(t0, t)
    ensures !run.Completed? ==> t == t0
    ensures var n := PageCount(DiscoverTotalPages(discovery));
            (run.Crashed? <==> n.None?) &&
            (run.Aborted? <==> n.Some? && n.value <= 0) &&
            (run.Completed? ==> n.Some? && run.requested == Range(1, n.value) &&
                                run.successfulPages == OkCount(run.requested, net) &&
                                run.successfulPages + run.failedPages == n.value &&
                                t.RowCount() <= t0.RowCount() + run.successfulPages)
    ensures run.Completed? ==>
              (run.rolledBack <==> AnyFailingPage(run.requested, net, raises)) &&
              (run.rolledBack ==> t == t0) &&
              (!run.rolledBack ==> forall k :: 0 <= k < |run.requested| && PageOk(run.requested[k], net) ==>
                                     PageHash(run.requested[k], net, hash) in t.index)
  {
    t := t0;
    var total := PageCount(DiscoverTotalPages(discovery));
    if total.None? {
      return Crashed, t;
    }
    if total.value <= 0 {
      return Aborted, t;
    }
    var successful, failed, requested, s := IngestPages(total.value, t0, net, hash, raises);
    t := if s.aborted then t0 else s.table;
    return Completed(successful, failed, requested, s.aborted), t;
  }

  /** The loop of `main` over the pages 1..n, on one open transaction started from `t0`. */
  method IngestPages(n: int, t0: RawTable, net: Network, hash: Hasher, raises: int -> bool)
    returns (successful: nat, failed: nat, requested: seq<int>, s: Session)
    requires t0.Valid() && 1 <= n
    ensures requested == Range(1, n)
    ensures PagesDone(t0, s, successful, failed, requested, net, hash, raises)
  {
    s := Session(t0, false);
    successful, failed := 0, 0;
    requested := [];
    var page := 1;
    while page <= n
      invariant 1 <= page <= n + 1 && requested == Range(1, page - 1)
      invariant PagesDone(t0, s, successful, failed, requested, net, hash, raises)
    {
      RangeSnoc(page);
      successful, failed, requested, s := NextPage(page, t0, net, hash, raises, successful, failed, requested, s);
      page := page + 1;
    }
  }

  /** One page of the loop of `main`, its outcome counted. */
  method NextPage(page: int, t0: RawTable, net: Network, hash: Hasher, raises: int -> bool,
                  successful: nat, failed: nat, requested: seq<int>, s: Session)
    returns (successful': nat, failed': nat, requested': seq<int>, s': Session)
    requires PagesDone(t0, s, successful, failed, requested, net, hash, raises)
    ensures requested' == requested + [page]
    ensures PagesDone(t0, s', successful', failed', requested', net, hash, raises)
  {
    var ok;
    ok, s' := HandlePage(page, s, net, hash, raises(page));
    PageStep(t0, s, s', ok, successful, failed, requested, page, net, hash, raises);
    if ok {
      successful', failed' := successful + 1, failed;
    } else {
      successful', failed' := successful, failed + 1;
    }
    requested' := requested + [page];
  }

  /**
   * The loop of `main` after the pages `requested`, from the committed
   * table `t0`: the counts, the open transaction, and the successful pages
   * stored unless it is aborted.
   */
  predicate PagesDone(t0: RawTable, s: Session, successful: nat, failed: nat, requested: seq<int>,
                      net: Network, hash: Hasher, raises: int -> bool)
  {
    s.table.Valid() && Grows(t0, s.table) &&
    successful == OkCount(requested, net) && successful + failed == |requested| &&
    s.table.RowCount() <= t0.RowCount() + successful &&
    (s.aborted <==> AnyFailingPage(requested, net, raises)) &&
    (!s.aborted ==> forall k :: 0 <= k < |requested| && PageOk(requested[k], net) ==>
                      PageHash(requested[k], net, hash) in s.table.index)
  }

  /** One more page handled, with the outcome `HandlePage` promises. */
  lemma PageStep(t0: RawTable, s: Session, s': Session, ok: bool, successful: nat, failed: nat, requested: seq<int>, page: int,
                 net: Network, hash: Hasher, raises: int -> bool)
    requires PagesDone(t0, s, successful, failed, requested, net, hash, raises)
    requires s'.table.Valid() && Grows(s.table, s'.table) && s.table.index.Keys <= s'.table.index.Keys
    requires ok <==> PageOk(page, net)
    requires s'.aborted <==> s.aborted || (ok && raises(page))
    requires ok && !s'.aborted ==> PageHash(page, net, hash) in s'.table.index
    requires s'.table.RowCount() <= s.table.RowCount() + (if ok then 1 else 0)
    ensures PagesDone(t0, s', successful + (if ok then 1 else 0), failed + (if ok then 0 else 1), requested + [page], net, hash, raises)
  {
    var ps := requested + [page];
    assert ps[..|requested|] == requested;
    AnyFailingPageSnoc(requested, page, net, raises);
    GrowsTransitive(t0, s.table, s'.table);
    if !s'.aborted {
      forall k | 0 <= k < |ps| && PageOk(ps[k], net)
        ensures PageHash(ps[k], net, hash) in s'.table.index
      {
        if k < |requested| {
          assert ps[k] == requested[k];
        }
      }
    }
  }

  lemma RangeSnoc(b: int)
    requires 1 <= b
    ensures Range(1, b) == Range(1, b - 1) + [b]
  {
    RangeSplit(1, b - 1, b);
    assert Range(b + 1, b) == [];
  }
}
