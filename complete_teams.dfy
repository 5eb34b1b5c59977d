/**
 * `scripts/bronze/complete_teams.py`: find the team ids the stored
 * scoreboards refer to (the `ent_id` of the first athlete of the first
 * discipline of each team) that have no `raw_teams` payload yet, and ingest
 * the team URL of each. The two SQL queries become functions over the
 * payload columns of `raw_scoreboard` and `raw_teams`, in the order the scans
 * return them.
 */
module CompleteTeams {
  import opened Wrappers
  import opened Json
  import opened Http
  import opened PyText
  import opened RawStore
  import opened Ingest
  import opened Discovery
  import opened TeamFetch

  const TeamsTable: string := "raw_teams"

  // ---------------------------------------------------------------------------
  // PostgreSQL jsonb operators and the ::int cast
  // ---------------------------------------------------------------------------

  /** `j -> 'k'`: the value under key `k` of an object (possibly JSON null), or SQL NULL (None). */
  function Arrow(j: Json, k: string): (r: Option<Json>)
    ensures r.Some? <==> HasKey(j, k)
  {
    if HasKey(j, k) then Some(Get(j, k)) else None
  }

  /** `j -> 0`: the first element of an array, or SQL NULL (None). */
  function First(j: Json): (r: Option<Json>)
    ensures r.Some? <==> j.JArr? && j.items != []
  {
    if j.JArr? && j.items != [] then Some(j.items[0]) else None
  }

  /** The outcome of a `::int` cast: SQL NULL, a value, or an error that aborts the query. */
  datatype SqlInt = SqlNull | SqlValue(n: int) | CastFails

  /** An `integer` is 32 bits wide: a value outside its range makes the cast fail. */
  function Int4(n: int): (r: SqlInt)
    ensures r.SqlValue? <==> -0x8000_0000 <= n <= 0x7fff_ffff
    ensures r.SqlValue? ==> r.n == n
  {
    if -0x8000_0000 <= n <= 0x7fff_ffff then SqlValue(n) else CastFails
  }

  /** The white space `int4in` skips around the number (C `isspace`). */
  predicate SqlSpace(c: char)
  {
    c == ' ' || ('\t' <= c <= '\r')
  }

  function TrimLeft(s: string): (r: string)
    ensures |r| <= |s| && r == s[|s| - |r|..] && (r == [] || !SqlSpace(r[0]))
  {
    if s != [] && SqlSpace(s[0]) then TrimLeft(s[1..]) else s
  }

  function TrimRight(s: string): (r: string)
    ensures |r| <= |s| && r == s[..|r|] && (r == [] || !SqlSpace(r[|r| - 1]))
  {
    if s != [] && SqlSpace(s[|s| - 1]) then TrimRight(s[..|s| - 1]) else s
  }

  /** `'s'::int`: optional white space, an optional sign and decimal digits, within 32 bits. */
  function TextToInt4(s: string): SqlInt
  {
    var t := TrimRight(TrimLeft(s));
    if t != [] && (t[0] == '-' || t[0] == '+') && IsDigitString(t[1..]) then
      var v: int := DigitsValue(t[1..]);
      Int4(if t[0] == '-' then -v else v)
    else if IsDigitString(t) then Int4(DigitsValue(t))
    else CastFails
  }

  /**
   * `(… ->> 'k')::int` of the value reached: SQL NULL for a missing key or a
   * JSON null; a number or a string is cast from its text; the text of a
   * boolean, an array or an object is never an integer.
   */
  function TextCast(v: Option<Json>): SqlInt
  {
    match v
    case None => SqlNull
    case Some(JNull) => SqlNull
    case Some(JInt(n)) => Int4(n)
    case Some(JStr(s)) => TextToInt4(s)
    case Some(_) => CastFails
  }

  /** The digits of a decimal integer cast back to that integer. */
  lemma TextToInt4OfDigits(n: nat)
    requires n <= 0x7fff_ffff
    ensures TextToInt4(NatToString(n)) == SqlValue(n)
  {
    NatToStringValue(n);
    DigitsCast(NatToString(n));
  }

  /** A string of digits with nothing around it casts to the number it denotes. */
  lemma DigitsCast(s: string)
    requires IsDigitString(s)
    ensures TextToInt4(s) == Int4(DigitsValue(s))
  {
    assert TrimLeft(s) == s by {
      assert !SqlSpace(s[0]);
    }
    assert TrimRight(s) == s by {
      assert !SqlSpace(s[|s| - 1]);
    }
  }

  // ---------------------------------------------------------------------------
  // find_missing_team_ids
  // ---------------------------------------------------------------------------

  /** `(team -> 'disciplines' -> 0 -> 'athletes' -> 0 ->> 'ent_id')::int`. */
  function EntId(team: Json): SqlInt
  {
    match Arrow(team, "disciplines")
    case None => SqlNull
    case Some(ds) =>
      match First(ds)
      case None => SqlNull
      case Some(d) =>
        match Arrow(d, "athletes")
        case None => SqlNull
        case Some(as_) =>
          match First(as_)
          case None => SqlNull
          case Some(a) => TextCast(Arrow(a, "ent_id"))
  }

  /** Only the first athlete of the first discipline counts: the other athletes and disciplines are never read. */
  lemma EntIdOfFirstAthlete(team: Json, d: Json, ds: seq<Json>, a: Json, as_: seq<Json>)
    requires Arrow(team, "disciplines") == Some(JArr([d] + ds))
    requires Arrow(d, "athletes") == Some(JArr([a] + as_))
    ensures EntId(team) == TextCast(Arrow(a, "ent_id"))
  {
  }

  /**
   * The teams of one scoreboard payload for `jsonb_array_elements(payload -> 'teams')`
   * under `WHERE payload -> 'teams' IS NOT NULL`: none when there is no
   * `teams` key; None when its value is not an array, which aborts the query.
   */
  function PayloadTeams(p: Json): Option<seq<Json>>
  {
    match Arrow(p, "teams")
    case None => Some([])
    case Some(JArr(items)) => Some(items)
    case Some(_) => None
  }

  /** The ids the query keeps from a column of cast results: the non-NULL ones in order, or None once a cast fails. */
  function NonNull(cs: seq<SqlInt>): (r: Option<seq<int>>)
    ensures r.None? <==> CastFails in cs
  {
    if cs == [] then Some([])
    else
      var init := cs[..|cs| - 1];
      assert cs == init + [cs[|cs| - 1]];
      match NonNull(init)
      case None => None
      case Some(vs) =>
        match cs[|cs| - 1]
        case CastFails => None
        case SqlNull => Some(vs)
        case SqlValue(n) => Some(vs + [n])
  }

  /** A kept id is exactly a value some cast produced. */
  lemma {:induction false} NonNullMeaning(cs: seq<SqlInt>, t: int)
    requires NonNull(cs).Some?
    ensures t in NonNull(cs).value <==> SqlValue(t) in cs
  {
    if cs != [] {
      var init := cs[..|cs| - 1];
      NonNullMeaning(init, t);
      assert cs == init + [cs[|cs| - 1]];
    }
  }

  /** The cast reference of every team of a list. */
  function EntIds(items: seq<Json>): (r: seq<SqlInt>)
    ensures |r| == |items| && forall i :: 0 <= i < |items| ==> r[i] == EntId(items[i])
  {
    if items == [] then [] else EntIds(items[..|items| - 1]) + [EntId(items[|items| - 1])]
  }

  /** `(payload ->> 'id')::int` of every stored team payload. */
  function PayloadIds(qs: seq<Json>): (r: seq<SqlInt>)
    ensures |r| == |qs| && forall i :: 0 <= i < |qs| ==> r[i] == TextCast(Arrow(qs[i], "id"))
  {
    if qs == [] then [] else PayloadIds(qs[..|qs| - 1]) + [TextCast(Arrow(qs[|qs| - 1], "id"))]
  }

  /** The team references of all stored scoreboards, payload by payload, or None when a payload's `teams` is not an array. */
  function ScoreboardRefs(ps: seq<Json>): Option<seq<SqlInt>>
  {
    if ps == [] then Some([])
    else
      match (ScoreboardRefs(ps[..|ps| - 1]), PayloadTeams(ps[|ps| - 1]))
      case (Some(cs), Some(items)) => Some(cs + EntIds(items))
      case _ => None
  }

  /** The `scoreboard_teams` of the query, with repeats, or None when the query raises. */
  function ScoreboardTeamIds(ps: seq<Json>): Option<seq<int>>
  {
    match ScoreboardRefs(ps)
    case None => None
    case Some(cs) => NonNull(cs)
  }

  /** The `existing_teams` of the query: the ids of the stored team payloads that have one, or None when a cast fails. */
  function ExistingTeamIds(qs: seq<Json>): Option<seq<int>>
  {
    NonNull(PayloadIds(qs))
  }

  /** Payload `p` has a `teams` array, and `c` is the cast reference of one of its teams. */
  predicate RefersAs(p: Json, c: SqlInt)
  {
    PayloadTeams(p).Some? && c in EntIds(PayloadTeams(p).value)
  }

  lemma RefsSnoc(init: seq<Json>, last: Json, c: SqlInt)
    requires ScoreboardRefs(init + [last]).Some?
    ensures ScoreboardRefs(init).Some?
    ensures c in ScoreboardRefs(init + [last]).value <==> c in ScoreboardRefs(init).value || RefersAs(last, c)
  {
    assert (init + [last])[..|init|] == init;
  }

  /** A reference in the scoreboard column comes from some stored payload, and every payload's references are in it. */
  lemma {:induction false} ScoreboardRefsMeaning(ps: seq<Json>, c: SqlInt)
    requires ScoreboardRefs(ps).Some?
    ensures c in ScoreboardRefs(ps).value <==> exists p :: p in ps && RefersAs(p, c)
  {
    if ps != [] {
      var init, last := ps[..|ps| - 1], ps[|ps| - 1];
      assert ps == init + [last];
      RefsSnoc(init, last, c);
      ScoreboardRefsMeaning(init, c);
      if c in ScoreboardRefs(init).value {
        var p :| p in init && RefersAs(p, c);
        assert p in ps;
      }
      if exists p :: p in ps && RefersAs(p, c) {
        var p :| p in ps && RefersAs(p, c);
        if p != last {
          assert p in init;
        }
      }
    }
  }

  lemma RaisesSnoc(init: seq<Json>, last: Json)
    ensures ScoreboardTeamIds(init + [last]).None? <==>
            ScoreboardTeamIds(init).None? || PayloadTeams(last).None? || RefersAs(last, CastFails)
  {
    assert (init + [last])[..|init|] == init;
    match (ScoreboardRefs(init), PayloadTeams(last))
    case (Some(cs), Some(items)) =>
      assert CastFails in cs + EntIds(items) <==> CastFails in cs || CastFails in EntIds(items);
    case _ =>
  }

  /** The scoreboard query raises exactly when a stored payload has a non-array `teams` or a reference that does not cast. */
  lemma {:induction false} ScoreboardRaises(ps: seq<Json>)
    ensures ScoreboardTeamIds(ps).None? <==> exists p :: p in ps && (PayloadTeams(p).None? || RefersAs(p, CastFails))
  {
    if ps != [] {
      var init, last := ps[..|ps| - 1], ps[|ps| - 1];
      assert ps == init + [last];
      RaisesSnoc(init, last);
      ScoreboardRaises(init);
      if exists p :: p in init && (PayloadTeams(p).None? || RefersAs(p, CastFails)) {
        var p :| p in init && (PayloadTeams(p).None? || RefersAs(p, CastFails));
        assert p in ps;
      }
      if exists p :: p in ps && (PayloadTeams(p).None? || RefersAs(p, CastFails)) {
        var p :| p in ps && (PayloadTeams(p).None? || RefersAs(p, CastFails));
        if p != last {
          assert p in init;
        }
      }
    }
  }

  /** The team query raises exactly when some stored payload's `id` does not cast. */
  lemma ExistingRaises(qs: seq<Json>)
    ensures ExistingTeamIds(qs).None? <==> exists q :: q in qs && TextCast(Arrow(q, "id")) == CastFails
  {
    var cs := PayloadIds(qs);
    if CastFails in cs {
      var i :| 0 <= i < |cs| && cs[i] == CastFails;
      assert qs[i] in qs;
    }
  }

  /** `WHERE et.team_id IS NULL AND st.team_id > 0`. */
  function Unmatched(vs: seq<int>, existing: seq<int>): (r: seq<int>)
    ensures forall t :: t in r <==> t in vs && t > 0 && t !in existing
  {
    if vs == [] then []
    else
      var init, last := vs[..|vs| - 1], vs[|vs| - 1];
      assert vs == init + [last];
      Unmatched(init, existing) + (if last > 0 && last !in existing then [last] else [])
  }

  /**
   * `find_missing_team_ids()`: the referenced team ids that are positive and
   * have no `raw_teams` payload, without repeats and ascending
   * (`SELECT DISTINCT … ORDER BY`), or None when the query raises.
   */
  function MissingTeamIds(ps: seq<Json>, qs: seq<Json>): (r: Option<seq<int>>)
    ensures r.Some? <==> ScoreboardTeamIds(ps).Some? && ExistingTeamIds(qs).Some?
    ensures r.Some? ==> Increasing(r.value)
  {
    match (ScoreboardTeamIds(ps), ExistingTeamIds(qs))
    case (Some(sb), Some(ex)) => Some(SortedOf(Unmatched(sb, ex)))
    case _ => None
  }

  /** A referenced id is in the scoreboard column exactly when a stored payload's team casts to it. */
  lemma ScoreboardTeamIdsMeaning(ps: seq<Json>, t: int)
    requires ScoreboardTeamIds(ps).Some?
    ensures t in ScoreboardTeamIds(ps).value <==> exists p :: p in ps && RefersAs(p, SqlValue(t))
  {
    NonNullMeaning(ScoreboardRefs(ps).value, t);
    ScoreboardRefsMeaning(ps, SqlValue(t));
  }

  /** An id is in the team column exactly when a stored team payload's `id` casts to it. */
  lemma ExistingTeamIdsMeaning(qs: seq<Json>, t: int)
    requires ExistingTeamIds(qs).Some?
    ensures t in ExistingTeamIds(qs).value <==> exists q :: q in qs && TextCast(Arrow(q, "id")) == SqlValue(t)
  {
    var cs := PayloadIds(qs);
    NonNullMeaning(cs, t);
    if SqlValue(t) in cs {
      var i :| 0 <= i < |cs| && cs[i] == SqlValue(t);
      assert qs[i] in qs;
    }
  }

  /**
   * A team id is missing exactly when it is positive, some stored scoreboard
   * refers to it through the first athlete of a team's first discipline, and
   * no stored team payload has it as its id.
   */
  lemma MissingMeaning(ps: seq<Json>, qs: seq<Json>, t: int)
    requires MissingTeamIds(ps, qs).Some?
    ensures t in MissingTeamIds(ps, qs).value <==>
            t > 0 && (exists p :: p in ps && RefersAs(p, SqlValue(t))) &&
            !(exists q :: q in qs && TextCast(Arrow(q, "id")) == SqlValue(t))
  {
    ScoreboardTeamIdsMeaning(ps, t);
    ExistingTeamIdsMeaning(qs, t);
  }

  // ---------------------------------------------------------------------------
  // ingest_teams_by_ids and main
  // ---------------------------------------------------------------------------

  /** `f"https://virtual.sssfonline.com/api/teams/{team_id}"` for each id. */
  function TeamUrls(ids: seq<int>): (urls: seq<string>)
    ensures |urls| == |ids| && forall i :: 0 <= i < |ids| ==> urls[i] == TeamUrl(ids[i])
  {
    seq(|ids|, i requires 0 <= i < |ids| => TeamUrl(ids[i]))
  }

  /** One more id extends the run by the `ingest_endpoint` call for its URL, as request number `i`. */
  lemma IngestNextId(db0: Db, ids: seq<int>, i: nat, net: Network, hash: Hasher, raises: nat -> bool)
    requires ValidDb(db0) && i < |ids|
    ensures var r := IngestAll(db0, TargetsOf(TeamsTable, TeamUrls(ids[..i])), net, hash, raises);
            IngestAll(db0, TargetsOf(TeamsTable, TeamUrls(ids[..i + 1])), net, hash, raises) ==
            IngestStep(r.1, r.0, Target(TeamsTable, TeamUrl(ids[i])), i, net, hash, raises)
  {
    var urls := TeamUrls(ids[..i]);
    assert ids[..i + 1][..i] == ids[..i];
    assert TeamUrls(ids[..i + 1]) == urls + [TeamUrl(ids[i])];
    TargetsOfSnoc(TeamsTable, urls, TeamUrl(ids[i]));
    IngestAllAppend(db0, TargetsOf(TeamsTable, urls), Target(TeamsTable, TeamUrl(ids[i])), net, hash, raises);
  }

  /**
   * `ingest_teams_by_ids(team_ids)`: one `ingest_endpoint` per id in order,
   * request `k` answered by `net(url, k)`; `successCount` counts the True
   * results, so it never exceeds the number of ids.
   */
  method IngestTeamsByIds(db0: Db, ids: seq<int>, net: Network, hash: Hasher, raises: nat -> bool)
    returns (successCount: nat, db: Db)
    requires ValidDb(db0)
    ensures (successCount, db) == IngestAll(db0, TargetsOf(TeamsTable, TeamUrls(ids)), net, hash, raises)
    ensures successCount <= |ids| && ValidDb(db) && db.Keys == db0.Keys
  {
    successCount, db := 0, db0;
    var i := 0;
    while i < |ids|
      invariant i <= |ids|
      invariant (successCount, db) == IngestAll(db0, TargetsOf(TeamsTable, TeamUrls(ids[..i])), net, hash, raises)
    {
      var url := TeamUrl(ids[i]);
      IngestNextId(db0, ids, i, net, hash, raises);
      // `if ingest_endpoint(...): success_count += 1`
      var r := IngestStep(db, successCount, Target(TeamsTable, url), i, net, hash, raises);
      successCount, db := r.0, r.1;
      i := i + 1;
    }
    assert ids[..i] == ids;
  }

  /**
   * `main()`: `crashed` when the query raises; when nothing is missing,
   * nothing is ingested; otherwise every missing id's URL is ingested once.
   */
  method CompleteTeamsRun(ps: seq<Json>, qs: seq<Json>, db0: Db, net: Network, hash: Hasher, raises: nat -> bool)
    returns (crashed: bool, successCount: nat, db: Db)
    requires ValidDb(db0)
    ensures crashed <==> MissingTeamIds(ps, qs).None?
    ensures crashed || MissingTeamIds(ps, qs) == Some([]) ==> successCount == 0 && db == db0
    ensures !crashed ==> (successCount, db) == IngestAll(db0, TargetsOf(TeamsTable, TeamUrls(MissingTeamIds(ps, qs).value)), net, hash, raises)
    ensures successCount <= if crashed then 0 else |MissingTeamIds(ps, qs).value|
  {
    var missing := MissingTeamIds(ps, qs);
    if missing.None? {
      return true, 0, db0;
    }
    if missing.value == [] {
      return false, 0, db0;
    }
    crashed := false;
    successCount, db := IngestTeamsByIds(db0, missing.value, net, hash, raises);
  }
}
