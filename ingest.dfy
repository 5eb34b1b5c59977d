/**
 * `src/ingest.py`: fetch each configured endpoint, canonicalise the JSON
 * payload, hash it, and insert it into its raw table unless a row with the
 * same `source_hash` already exists.
 */
module Ingest {
  import opened Wrappers
  import opened Json
  import opened Http
  import opened Tables
  import opened RawStore
  import Canonical

  /** The database: raw tables by name. A table that is missing makes the INSERT raise. */
  type Db = map<string, RawTable>

  predicate ValidDb(db: Db)
  {
    forall t :: t in db ==> db[t].Valid()
  }

  /** `canonicalize_json`. */
  function CanonicalizeJson(obj: Json): string
  {
    Canonical.CanonicalText(obj)
  }

  /** The source hash depends on the payload only through its canonical text. */
  function SourceHash(hash: Hasher, payload: Json): (h: string)
    ensures h == hash(CanonicalizeJson(payload))
  {
    CanonicalHash(hash, payload)
  }

  const MatchNumberKeys: seq<string> := ["match_number", "MatchNumber", "matchNumber"]

  /**
   * `payload.get("match_number") or payload.get("MatchNumber") or payload.get("matchNumber")`
   * for a dict, None otherwise.
   */
  function MatchNumber(payload: Json): (m: Json)
  {
    if payload.JObj? then GetFirst(payload, MatchNumberKeys) else JNull
  }

  /**
   * For a dict the match number is the first truthy of the three keys' values;
   * when none is truthy it is the `matchNumber` value itself (Python's `or`
   * yields its last operand), which is None when that key is absent.
   */
  lemma MatchNumberChoice(payload: Json)
    ensures !payload.JObj? ==> MatchNumber(payload) == JNull
    ensures payload.JObj? && Truthy(Get(payload, "match_number")) ==>
              MatchNumber(payload) == Get(payload, "match_number")
    ensures payload.JObj? && !Truthy(Get(payload, "match_number")) && Truthy(Get(payload, "MatchNumber")) ==>
              MatchNumber(payload) == Get(payload, "MatchNumber")
    ensures payload.JObj? && !Truthy(Get(payload, "match_number")) && !Truthy(Get(payload, "MatchNumber")) ==>
              MatchNumber(payload) == Get(payload, "matchNumber")
    ensures (payload.JObj? && !HasKey(payload, "match_number") && !HasKey(payload, "MatchNumber") &&
             !HasKey(payload, "matchNumber")) ==> MatchNumber(payload) == JNull
  {
    if payload.JObj? {
      var ks := MatchNumberKeys;
      assert ks[0] == "match_number" && ks[1..] == ["MatchNumber", "matchNumber"];
      assert ks[1..][0] == "MatchNumber" && ks[1..][1..] == ["matchNumber"];
      assert GetFirst(payload, ks[1..][1..]) == Get(payload, "matchNumber");
      assert GetFirst(payload, ks[1..]) == Or(Get(payload, "MatchNumber"), Get(payload, "matchNumber"));
      assert MatchNumber(payload) ==
        Or(Get(payload, "match_number"), Or(Get(payload, "MatchNumber"), Get(payload, "matchNumber")));
    }
  }

  /**
   * `ingest_endpoint(conn, table, url)` given the response to its GET and
   * whether the INSERT raises: the result and the database afterwards.
   */
  function IngestEndpoint(db: Db, table: string, url: string, resp: Response, hash: Hasher, insertRaises: bool): (r: (bool, Db))
    requires ValidDb(db)
    ensures ValidDb(r.1)
    ensures r.1.Keys == db.Keys
    ensures forall t :: t in db && t != table ==> r.1[t] == db[t]
    ensures !(IsOk(resp) && resp.body.Parsed?) ==> r == (false, db)
    ensures insertRaises || table !in db ==> r == (false, db)
    ensures r.0 <==> IsOk(resp) && resp.body.Parsed? && !insertRaises && table in db &&
                     SourceHash(hash, resp.body.json) !in db[table].index
    ensures r.0 ==> r.1[table].RowCount() == db[table].RowCount() + 1 &&
                    r.1[table].index.Keys == db[table].index.Keys + {SourceHash(hash, resp.body.json)}
    ensures !r.0 && table in db ==> r.1[table].rows == db[table].rows && r.1[table].index == db[table].index
  {
    if !(IsOk(resp) && resp.body.Parsed?) then (false, db)
    else
      var payload := resp.body.json;
      var h := SourceHash(hash, payload);
      if insertRaises || table !in db then (false, db)
      else
        var (ok, t') := StoreRaw(db[table], RawRow(MatchNumber(payload), payload, url, h), false);
        (ok, db[table := t'])
  }

  /**
   * Ingesting a payload whose canonical text equals one already stored (for
   * instance the same dict with its keys in another order) returns False and
   * leaves the table's rows as they were.
   */
  lemma RepeatIsNoOp(db: Db, table: string, url1: string, url2: string, p: Json, q: Json, hash: Hasher)
    requires ValidDb(db) && CanonicalizeJson(p) == CanonicalizeJson(q)
    ensures var (ok1, db1) := IngestEndpoint(db, table, url1, Reply(200, Parsed(p)), hash, false);
            var (ok2, db2) := IngestEndpoint(db1, table, url2, Reply(200, Parsed(q)), hash, false);
            !ok2 && (table in db ==> db2[table].rows == db1[table].rows)
  {
  }

  /** The same holds for a payload whose dicts' items were merely reordered, at any depth. */
  lemma ReorderedRepeatIsNoOp(db: Db, table: string, url: string, p: Json, q: Json, hash: Hasher)
    requires ValidDb(db)
    requires Canonical.SameUpToKeyOrder(p, q)
    ensures var (ok1, db1) := IngestEndpoint(db, table, url, Reply(200, Parsed(p)), hash, false);
            var (ok2, db2) := IngestEndpoint(db1, table, url, Reply(200, Parsed(q)), hash, false);
            !ok2 && (table in db ==> db2[table].rows == db1[table].rows)
  {
    Canonical.CanonicalKeyOrderInvariant(p, q, Canonical.Compact);
    RepeatIsNoOp(db, table, url, url, p, q, hash);
  }

  /** One GET + INSERT of `run_ingest`: a table name and a URL. */
  datatype Target = Target(table: string, url: string)

  /** `ENDPOINTS`: table name to URLs, in dict order. */
  type Endpoints = seq<(string, seq<string>)>

  function TargetsOf(table: string, urls: seq<string>): (ts: seq<Target>)
    ensures |ts| == |urls|
  {
    if urls == [] then [] else TargetsOf(table, urls[..|urls| - 1]) + [Target(table, urls[|urls| - 1])]
  }

  lemma TargetsOfSnoc(table: string, urls: seq<string>, u: string)
    ensures TargetsOf(table, urls + [u]) == TargetsOf(table, urls) + [Target(table, u)]
  {
    assert (urls + [u])[..|urls|] == urls;
  }

  /** The URLs in the order `run_ingest` visits them. */
  function Targets(es: Endpoints): seq<Target>
  {
    if es == [] then [] else Targets(es[..|es| - 1]) + TargetsOf(es[|es| - 1].0, es[|es| - 1].1)
  }

  lemma TargetsSnoc(es: Endpoints, e: nat)
    requires e < |es|
    ensures Targets(es[..e + 1]) == Targets(es[..e]) + TargetsOf(es[e].0, es[e].1)
  {
    assert es[..e + 1][..e] == es[..e];
  }

  /** The number of configured URLs. */
  function UrlCount(es: Endpoints): nat
  {
    if es == [] then 0 else UrlCount(es[..|es| - 1]) + |es[|es| - 1].1|
  }

  lemma {:induction false} TargetsLength(es: Endpoints)
    ensures |Targets(es)| == UrlCount(es)
  {
    if es != [] { TargetsLength(es[..|es| - 1]); }
  }

  /** One `ingest_endpoint` call of a run, request `k`, added to the count `n` of True results so far. */
  function IngestStep(db: Db, n: nat, t: Target, k: nat, net: Network, hash: Hasher, raises: nat -> bool): (r: (nat, Db))
    requires ValidDb(db)
    ensures ValidDb(r.1) && r.1.Keys == db.Keys
    ensures r.0 == n || r.0 == n + 1
  {
    var (ok, db') := IngestEndpoint(db, t.table, t.url, net(t.url, k), hash, raises(k));
    (if ok then n + 1 else n, db')
  }

  /** A run's state: the number of True results so far and a valid database. */
  type State = s: (nat, Db) | ValidDb(s.1) witness (0, map[])

  /** What one request of a run does to the state: target `t`, request `k`. */
  type StepFn = (State, Target, nat) -> State

  /** The targets `ts` taken in order from state `s` by `step`, the `i`-th being request `k0 + i`. */
  function Run(s: State, k0: nat, ts: seq<Target>, step: StepFn): State
  {
    if ts == [] then s else step(Run(s, k0, ts[..|ts| - 1], step), ts[|ts| - 1], k0 + |ts| - 1)
  }

  lemma {:induction false} RunAppend(s: State, k0: nat, ts: seq<Target>, t: Target, step: StepFn)
    ensures Run(s, k0, ts + [t], step) == step(Run(s, k0, ts, step), t, k0 + |ts|)
  {
    assert (ts + [t])[..|ts|] == ts;
  }

  /** Running `a + b` is running `a`, then `b` from where `a` left off. */
  lemma {:induction false} RunConcat(s: State, k0: nat, a: seq<Target>, b: seq<Target>, step: StepFn)
    ensures Run(s, k0, a + b, step) == Run(Run(s, k0, a, step), k0 + |a|, b, step)
  {
    if b == [] {
      assert a + b == a;
    } else {
      var b', l := b[..|b| - 1], b[|b| - 1];
      var r := Run(s, k0, a, step);
      assert a + b == (a + b') + [l];
      assert b' + [l] == b;
      calc {
        Run(s, k0, a + b, step);
        Run(s, k0, (a + b') + [l], step);
        { RunAppend(s, k0, a + b', l, step); }
        step(Run(s, k0, a + b', step), l, k0 + |a + b'|);
        { RunConcat(s, k0, a, b', step); }
        step(Run(r, k0 + |a|, b', step), l, k0 + |a| + |b'|);
        { RunAppend(r, k0 + |a|, b', l, step); }
        Run(r, k0 + |a|, b' + [l], step);
        Run(r, k0 + |a|, b, step);
      }
    }
  }

  /** A step adds at most one True result and keeps the set of tables. */
  ghost predicate StepBounded(step: StepFn)
  {
    forall s: State, t: Target, k: nat :: s.0 <= step(s, t, k).0 <= s.0 + 1 && step(s, t, k).1.Keys == s.1.Keys
  }

  lemma {:induction false} RunBounded(s: State, k0: nat, ts: seq<Target>, step: StepFn)
    requires StepBounded(step)
    ensures s.0 <= Run(s, k0, ts, step).0 <= s.0 + |ts|
    ensures Run(s, k0, ts, step).1.Keys == s.1.Keys
  {
    if ts != [] {
      RunBounded(s, k0, ts[..|ts| - 1], step);
    }
  }

  /** `ingest_endpoint` as a step of `run_ingest`. */
  function IngestStepFn(net: Network, hash: Hasher, raises: nat -> bool): (f: StepFn)
    ensures StepBounded(f)
  {
    (s: State, t: Target, k: nat) => IngestStep(s.1, s.0, t, k, net, hash, raises)
  }

  /**
   * The effect of ingesting the targets `ts` in order, starting from `n0`
   * True results and database `db0`, the `i`-th target being request
   * `k0 + i`: how many returned True in all, and the database.
   */
  function IngestFrom(n0: nat, db0: Db, k0: nat, ts: seq<Target>, net: Network, hash: Hasher, raises: nat -> bool): (r: (nat, Db))
    requires ValidDb(db0)
    ensures ValidDb(r.1) && r.1.Keys == db0.Keys
    ensures n0 <= r.0 <= n0 + |ts|
  {
    RunBounded((n0, db0), k0, ts, IngestStepFn(net, hash, raises));
    Run((n0, db0), k0, ts, IngestStepFn(net, hash, raises))
  }

  /**
   * The effect of ingesting the targets `ts` in order, request `k` answered
   * by `net(url, k)`: how many returned True, and the database.
   */
  function IngestAll(db0: Db, ts: seq<Target>, net: Network, hash: Hasher, raises: nat -> bool): (r: (nat, Db))
    requires ValidDb(db0)
    ensures ValidDb(r.1) && r.1.Keys == db0.Keys
    ensures r.0 <= |ts|
  {
    IngestFrom(0, db0, 0, ts, net, hash, raises)
  }

  /** Ingesting one more target extends the fold by one `ingest_endpoint` call. */
  lemma {:induction false} IngestFromAppend(n0: nat, db0: Db, k0: nat, ts: seq<Target>, t: Target, net: Network, hash: Hasher, raises: nat -> bool)
    requires ValidDb(db0)
    ensures var r := IngestFrom(n0, db0, k0, ts, net, hash, raises);
            IngestFrom(n0, db0, k0, ts + [t], net, hash, raises) == IngestStep(r.1, r.0, t, k0 + |ts|, net, hash, raises)
  {
    RunAppend((n0, db0), k0, ts, t, IngestStepFn(net, hash, raises));
  }

  /** The same for a run that starts from nothing. */
  lemma {:induction false} IngestAllAppend(db0: Db, ts: seq<Target>, t: Target, net: Network, hash: Hasher, raises: nat -> bool)
    requires ValidDb(db0)
    ensures var r := IngestAll(db0, ts, net, hash, raises);
            IngestAll(db0, ts + [t], net, hash, raises) == IngestStep(r.1, r.0, t, |ts|, net, hash, raises)
  {
    IngestFromAppend(0, db0, 0, ts, t, net, hash, raises);
  }

  /** Ingesting `a + b` is ingesting `a`, then `b` from where `a` left off. */
  lemma {:induction false} IngestFromConcat(n0: nat, db0: Db, k0: nat, a: seq<Target>, b: seq<Target>,
                                            net: Network, hash: Hasher, raises: nat -> bool)
    requires ValidDb(db0)
    ensures var r := IngestFrom(n0, db0, k0, a, net, hash, raises);
            IngestFrom(n0, db0, k0, a + b, net, hash, raises) == IngestFrom(r.0, r.1, k0 + |a|, b, net, hash, raises)
  {
    RunConcat((n0, db0), k0, a, b, IngestStepFn(net, hash, raises));
  }

  /** The rows of the named tables, all together. */
  function TotalRows(db: Db, names: seq<string>): nat
  {
    if names == [] then 0
    else (if names[0] in db then db[names[0]].RowCount() else 0) + TotalRows(db, names[1..])
  }

  lemma {:induction false} TotalRowsFrame(db: Db, db': Db, names: seq<string>, table: string)
    requires forall t :: t in names && t != table ==> (t in db <==> t in db') && (t in db ==> db[t].RowCount() == db'[t].RowCount())
    requires table in db && table in db'
    requires forall i, j :: 0 <= i < j < |names| ==> names[i] != names[j]
    ensures table in names ==> TotalRows(db', names) == TotalRows(db, names) - db[table].RowCount() + db'[table].RowCount()
    ensures table !in names ==> TotalRows(db', names) == TotalRows(db, names)
  {
    if names != [] {
      TotalRowsFrame(db, db', names[1..], table);
      if names[0] == table {
        assert table !in names[1..];
      }
    }
  }

  /** One step adds a row to the named tables exactly when it counts a True result. */
  lemma StepAddsRows(db: Db, n: nat, t: Target, k: nat, net: Network, hash: Hasher, raises: nat -> bool, names: seq<string>)
    requires ValidDb(db)
    requires forall i, j :: 0 <= i < j < |names| ==> names[i] != names[j]
    requires t.table in names
    ensures var r := IngestStep(db, n, t, k, net, hash, raises);
            TotalRows(r.1, names) + n == TotalRows(db, names) + r.0
  {
    var (ok, db') := IngestEndpoint(db, t.table, t.url, net(t.url, k), hash, raises(k));
    if t.table in db {
      TotalRowsFrame(db, db', names, t.table);
    } else {
      assert db' == db;
    }
  }

  /**
   * `inserted` counts exactly the rows that were added: when every target's
   * table is among the distinct `names`, the tables hold `inserted` more rows.
   */
  lemma {:induction false} IngestAllCountsNewRows(db0: Db, ts: seq<Target>, net: Network, hash: Hasher, raises: nat -> bool, names: seq<string>)
    requires ValidDb(db0)
    requires forall i, j :: 0 <= i < j < |names| ==> names[i] != names[j]
    requires forall k :: 0 <= k < |ts| ==> ts[k].table in names
    ensures TotalRows(IngestAll(db0, ts, net, hash, raises).1, names) == TotalRows(db0, names) + IngestAll(db0, ts, net, hash, raises).0
  {
    if ts != [] {
      var pre := ts[..|ts| - 1];
      var k := |ts| - 1;
      IngestAllCountsNewRows(db0, pre, net, hash, raises, names);
      assert pre + [ts[k]] == ts;
      IngestAllAppend(db0, pre, ts[k], net, hash, raises);
      var r := IngestAll(db0, pre, net, hash, raises);
      StepAddsRows(r.1, r.0, ts[k], k, net, hash, raises, names);
    }
  }

  /**
   * The inner loop of `run_ingest`: the URLs of one table, continuing from
   * `tried0` requests, `inserted0` True results and database `db0`.
   */
  method IngestUrls(table: string, urls: seq<string>, step: StepFn, tried0: nat, s0: State)
    returns (tried: nat, s: State)
    ensures tried == tried0 + |urls|
    ensures s == Run(s0, tried0, TargetsOf(table, urls), step)
  {
    s, tried := s0, tried0;
    var j := 0;
    ghost var ts := [];
    while j < |urls|
      invariant 0 <= j <= |urls|
      invariant tried == tried0 + j && j == |ts|
      invariant ts == TargetsOf(table, urls[..j])
      invariant s == Run(s0, tried0, ts, step)
    {
      assert TargetsOf(table, urls[..j + 1]) == ts + [Target(table, urls[j])] by {
        assert urls[..j + 1] == urls[..j] + [urls[j]];
        TargetsOfSnoc(table, urls[..j], urls[j]);
      }
      RunAppend(s0, tried0, ts, Target(table, urls[j]), step);
      s := step(s, Target(table, urls[j]), tried);
      ts := ts + [Target(table, urls[j])];
      tried := tried + 1;
      j := j + 1;
    }
    assert urls[..j] == urls;
  }

  /** One pass of `run_ingest`'s outer loop: the URLs of endpoint `e`, after those of the endpoints before it. */
  method RunEndpoint(endpoints: Endpoints, e: nat, step: StepFn, s0: State, tried: nat, s: State)
    returns (tried': nat, s': State)
    requires e < |endpoints|
    requires tried == |Targets(endpoints[..e])| && s == Run(s0, 0, Targets(endpoints[..e]), step)
    ensures tried' == |Targets(endpoints[..e + 1])| && s' == Run(s0, 0, Targets(endpoints[..e + 1]), step)
  {
    var table, urls := endpoints[e].0, endpoints[e].1;
    TargetsSnoc(endpoints, e);
    RunConcat(s0, 0, Targets(endpoints[..e]), TargetsOf(table, urls), step);
    tried', s' := IngestUrls(table, urls, step, tried, s);
  }

  /** The loop of `run_ingest` over the endpoints, each table's URLs in turn, for any step. */
  method RunEndpoints(endpoints: Endpoints, step: StepFn, s0: State) returns (tried: nat, s: State)
    ensures tried == |Targets(endpoints)|
    ensures s == Run(s0, 0, Targets(endpoints), step)
  {
    tried, s := 0, s0;
    var e := 0;
    while e < |endpoints|
      invariant 0 <= e <= |endpoints|
      invariant tried == |Targets(endpoints[..e])| && s == Run(s0, 0, Targets(endpoints[..e]), step)
    {
      tried, s := RunEndpoint(endpoints, e, step, s0, tried, s);
      e := e + 1;
    }
    assert endpoints[..e] == endpoints;
  }

  /**
   * `run_ingest(endpoints)`: `tried` counts every configured URL and
   * `inserted` the URLs whose ingest returned True.
   */
  method RunIngest(endpoints: Endpoints, db0: Db, net: Network, hash: Hasher, raises: nat -> bool)
    returns (tried: nat, inserted: nat, db: Db)
    requires ValidDb(db0)
    ensures tried == UrlCount(endpoints)
    ensures (inserted, db) == IngestAll(db0, Targets(endpoints), net, hash, raises)
    ensures inserted <= tried
  {
    var s;
    tried, s := RunEndpoints(endpoints, IngestStepFn(net, hash, raises), (0, db0));
    inserted, db := s.0, s.1;
    TargetsLength(endpoints);
  }
}
