/**
 * `src/SilverTeamTransform.py`: one raw team payload normalised into
 * `dim_team`, a `fact_team_snapshot` row, and the roster's `dim_person` and
 * `map_team_members` rows.
 *
 * The whole run is one transaction (`with conn:`). A statement the database
 * refuses (an unknown column of the legacy schema, a value psycopg2 cannot
 * adapt) is an oracle of the statement and its parameters. Three PostgreSQL
 * rules shape the model:
 * - `connection.rollback()` undoes everything since the transaction began,
 *   which is the state the run started from (`start`);
 * - after a refused statement whose exception is swallowed, the transaction
 *   is aborted and every further statement is refused until a rollback;
 * - committing an aborted transaction rolls it back.
 * `str()` of a dict or list and SHA-256 are oracles too. A `raise` is
 * modelled as no result.
 */
module TeamTransform {
  import opened Wrappers
  import opened Json
  import opened Tables
  import Canonical
  import TransformFacts
  import TransformDimensions
  import StableSort

  /** `dim_team`'s conflict columns: `(source, source_ent_id)`, or `ent_id` in the legacy schema. */
  datatype TeamKey = ModernKey(source: Json, sourceEntId: string) | LegacyKey(entId: string)

  datatype TeamRow = TeamRow(name: Json, country: Json, city: Json, state: Json, metadata: Json)

  datatype PersonRow = PersonRow(given: Json, family: Json, full: Json, country: Json, metadata: Json)

  datatype Snapshot = Snapshot(id: nat, teamId: nat, rawId: int, payload: Json, hash: string)

  /**
   * The tables the transform writes, and whether the transaction is aborted.
   * `members` is keyed by `(team_id, person_id, role)` and holds `source_raw_id`.
   */
  datatype Db = Db(teams: Serial<TeamKey, TeamRow>, persons: Serial<(Json, string), PersonRow>,
                   members: Keyed<(nat, nat, Json), int>, snapshots: seq<Snapshot>, nextSnapshot: nat,
                   aborted: bool)
  {
    predicate Valid()
    {
      teams.Valid() && persons.Valid() && forall i :: 0 <= i < |snapshots| ==> snapshots[i].id < nextSnapshot
    }
  }

  /** The statements, for the oracle that says whether the database refuses one. */
  datatype Stmt = ModernTeamStmt | LegacyTeamStmt | SnapshotStmt | PersonStmt | MemberStmt

  datatype Env = Env(rejects: (Stmt, seq<Json>) -> bool, repr: Json -> string, sha256: string -> string)

  datatype Outcome = Outcome(rawId: int, teamId: nat, snapshotId: nat)

  // ---------------------------------------------------------------------------
  // The columns of the team row
  // ---------------------------------------------------------------------------

  /** Python's `str(v)`: scalars as they print, a dict or list through the `repr` oracle. */
  function PyStr(v: Json, env: Env): string
  {
    if TransformDimensions.Hashable(v) then TransformDimensions.Str(v) else env.repr(v)
  }

  /** The first truthy value among `p.get(k)` for the keys, or None. */
  function FirstTruthy(p: Json, ks: seq<string>): (r: Json)
    requires p.JObj?
    ensures r == JNull || Truthy(r)
    decreases |ks|
  {
    if ks == [] then JNull
    else if Truthy(Get(p, ks[0])) then Get(p, ks[0])
    else FirstTruthy(p, ks[1..])
  }

  const IdKeys := ["id", "ent_id", "team_id"]

  /** `extract_id_from_payload` (lines 141-147). */
  function ExtractId(p: Json): (r: Json)
    requires p.JObj?
    ensures Truthy(Get(p, "id")) ==> r == Get(p, "id")
    ensures !Truthy(Get(p, "id")) && Truthy(Get(p, "ent_id")) ==> r == Get(p, "ent_id")
    ensures !Truthy(Get(p, "id")) && !Truthy(Get(p, "ent_id")) && Truthy(Get(p, "team_id")) ==> r == Get(p, "team_id")
    ensures !Truthy(Get(p, "id")) && !Truthy(Get(p, "ent_id")) && !Truthy(Get(p, "team_id")) ==> r == JNull
  {
    assert IdKeys[1..] == ["ent_id", "team_id"] && IdKeys[1..][1..] == ["team_id"] && IdKeys[1..][1..][1..] == [];
    FirstTruthy(p, IdKeys)
  }

  /** Line 85: `payload.get('source') or 'sssfonline'`. */
  function Source(p: Json): Json
    requires p.JObj?
  {
    Or(Get(p, "source"), JStr("sssfonline"))
  }

  /** Line 86: `str(id or ent_id or team_id or extract_id_from_payload(payload) or raw_id)`. */
  function SourceEntId(p: Json, rawId: int, env: Env): string
    requires p.JObj?
  {
    PyStr(OrChain([Get(p, "id"), Get(p, "ent_id"), Get(p, "team_id"), ExtractId(p), JInt(rawId)]), env)
  }

  /** `json.dumps(v, ensure_ascii=False)`: default separators, keys in their own order. */
  const DumpsStyle := Canonical.Style(", ", ": ", false)

  /** Lines 87-93: the name chain, a dict or list printed as JSON. */
  function TeamName(p: Json, entId: string): (r: Json)
    requires p.JObj?
    ensures !r.JObj? && !r.JArr?
    ensures var v := OrChain([Get(p, "name"), Get(p, "teamName"), Get(p, "displayName"), JStr(entId)]);
            r == (if v.JObj? || v.JArr? then JStr(Canonical.Serialize(v, DumpsStyle)) else v)
  {
    var v := OrChain([Get(p, "name"), Get(p, "teamName"), Get(p, "displayName"), JStr(entId)]);
    if v.JObj? || v.JArr? then JStr(Canonical.Serialize(v, DumpsStyle)) else v
  }

  /** Lines 94-102: a dict or list place column becomes its `str()`. */
  function Place(v: Json, env: Env): (r: Json)
    ensures !r.JObj? && !r.JArr?
    ensures !v.JObj? && !v.JArr? ==> r == v
  {
    if v.JObj? || v.JArr? then JStr(env.repr(v)) else v
  }

  /** The keys line 106 leaves out of the metadata built from the payload. */
  const Excluded := ["id", "ent_id", "team_id", "name", "teamName", "displayName", "country", "nation", "city", "state"]

  /** The items of a dict whose key is not one of `ks`, in order. */
  function Without(fs: seq<Field>, ks: seq<string>): (gs: seq<Field>)
    ensures forall f :: f in gs ==> f in fs && f.key !in ks
    decreases |fs|
  {
    if fs == [] then []
    else (if fs[0].key in ks then [] else [fs[0]]) + Without(fs[1..], ks)
  }

  /** Lines 104-108: `meta or metadata`; None builds it from the payload, a non-dict is wrapped. */
  function Metadata(p: Json): (r: Json)
    requires p.JObj?
    ensures r.JObj?
    ensures var m := Or(Get(p, "meta"), Get(p, "metadata"));
            (m == JNull ==> r == JObj(Without(p.fields, Excluded))) &&
            (m.JObj? ==> r == m) &&
            (m != JNull && !m.JObj? ==> r == JObj([Field("value", m)]))
  {
    var m := Or(Get(p, "meta"), Get(p, "metadata"));
    if m == JNull then JObj(Without(p.fields, Excluded))
    else if m.JObj? then m
    else JObj([Field("value", m)])
  }

  /** The values lines 85-108 pass as `team_name`, `country`, `city`, `state` and `metadata`. */
  function TeamColumns(p: Json, entId: string, env: Env): TeamRow
    requires p.JObj?
  {
    TeamRow(TeamName(p, entId), Place(Or(Get(p, "country"), Get(p, "nation")), env),
            Place(Get(p, "city"), env), Place(Get(p, "state"), env), Metadata(p))
  }

  // ---------------------------------------------------------------------------
  // upsert_dim_team and insert_snapshot
  // ---------------------------------------------------------------------------

  /** SQL `COALESCE(a, b)`. */
  function Coalesce(a: Json, b: Json): Json
  {
    if a == JNull then b else a
  }

  /** Lines 39-46: the name is overwritten; a NULL place or metadata keeps the stored one. */
  function Coalesced(stored: TeamRow, incoming: TeamRow): (r: TeamRow)
    ensures r.name == incoming.name
    ensures r.country == (if incoming.country == JNull then stored.country else incoming.country)
    ensures r.city == (if incoming.city == JNull then stored.city else incoming.city)
    ensures r.state == (if incoming.state == JNull then stored.state else incoming.state)
    ensures r.metadata == (if incoming.metadata == JNull then stored.metadata else incoming.metadata)
  {
    TeamRow(incoming.name, Coalesce(incoming.country, stored.country), Coalesce(incoming.city, stored.city),
            Coalesce(incoming.state, stored.state), Coalesce(incoming.metadata, stored.metadata))
  }

  /** Line 61: the legacy conflict action sets the name only. */
  function Renamed(stored: TeamRow, incoming: TeamRow): TeamRow
  {
    stored.(name := incoming.name)
  }

  function ModernParams(source: Json, entId: string, row: TeamRow): seq<Json>
  {
    [source, JStr(entId), row.name, row.country, row.city, row.state, row.metadata]
  }

  /**
   * `upsert_dim_team` (lines 32-67). The modern upsert, unless it is refused;
   * then the connection is rolled back to `start` and the legacy upsert by
   * `ent_id` is tried, whose refusal raises.
   */
  function UpsertTeam(start: Db, db: Db, source: Json, entId: string, row: TeamRow, env: Env): (r: Option<(nat, Db)>)
    requires start.Valid() && db.Valid()
    ensures r.Some? ==> r.value.1.Valid() && !r.value.1.aborted
    ensures var modern := !db.aborted && !env.rejects(ModernTeamStmt, ModernParams(source, entId, row));
            (modern ==> r.Some? && r.value.1 == db.(teams := r.value.1.teams) &&
                        Upserted(db.teams, r.value.1.teams, ModernKey(source, entId), r.value.0, row, Coalesced)) &&
            (!modern ==> (r.None? <==> env.rejects(LegacyTeamStmt, [JStr(entId), row.name]))) &&
            (!modern && r.Some? ==> r.value.1 == start.(teams := r.value.1.teams, aborted := false) &&
                                    Upserted(start.teams, r.value.1.teams, LegacyKey(entId), r.value.0,
                                             TeamRow(row.name, JNull, JNull, JNull, JNull), Renamed))
  {
    if !db.aborted && !env.rejects(ModernTeamStmt, ModernParams(source, entId, row)) then
      var u := Upsert(db.teams, ModernKey(source, entId), row, Coalesced);
      UpsertUpserted(db.teams, ModernKey(source, entId), row, Coalesced);
      Some((u.0, db.(teams := u.1)))
    else if env.rejects(LegacyTeamStmt, [JStr(entId), row.name]) then None
    else
      var u := Upsert(start.teams, LegacyKey(entId), TeamRow(row.name, JNull, JNull, JNull, JNull), Renamed);
      UpsertUpserted(start.teams, LegacyKey(entId), TeamRow(row.name, JNull, JNull, JNull, JNull), Renamed);
      Some((u.0, start.(teams := u.1, aborted := false)))
  }

  /** Lines 24-29: SHA-256 of `json.dumps(payload, sort_keys=True, separators=(',', ':'), ensure_ascii=False)`. */
  function Hash(p: Json, env: Env): string
  {
    env.sha256(Canonical.CanonicalText(p))
  }

  /** `insert_snapshot` (lines 70-77): a new snapshot under the next id, on every call. */
  function InsertSnapshot(db: Db, teamId: nat, rawId: int, p: Json, env: Env): (r: Option<(nat, Db)>)
    requires db.Valid()
    ensures r.Some? <==> !db.aborted && !env.rejects(SnapshotStmt, [JInt(teamId), JInt(rawId), p, JStr(Hash(p, env))])
    ensures r.Some? ==> r.value.1.Valid() && r.value.1.aborted == db.aborted
    ensures r.Some? ==> r.value.1 == db.(snapshots := r.value.1.snapshots, nextSnapshot := r.value.1.nextSnapshot)
    ensures r.Some? ==> r.value.1.snapshots == db.snapshots + [Snapshot(r.value.0, teamId, rawId, p, Hash(p, env))]
    ensures r.Some? ==> forall i :: 0 <= i < |db.snapshots| ==> db.snapshots[i].id != r.value.0
  {
    var hash := Hash(p, env);
    if db.aborted || env.rejects(SnapshotStmt, [JInt(teamId), JInt(rawId), p, JStr(hash)]) then None
    else
      var id := db.nextSnapshot;
      Some((id, db.(snapshots := db.snapshots + [Snapshot(id, teamId, rawId, p, hash)], nextSnapshot := id + 1)))
  }

  // ---------------------------------------------------------------------------
  // The roster
  // ---------------------------------------------------------------------------

  /** Line 114: `members or roster or athletes or []`, iterated when truthy; None when iterating raises. */
  function Roster(p: Json): Option<seq<Json>>
    requires p.JObj?
  {
    var v := OrChain([Get(p, "members"), Get(p, "roster"), Get(p, "athletes"), JArr([])]);
    if Truthy(v) then TransformFacts.Iterate(v) else Some([])
  }

  /** Line 119: the member's id. */
  function MemberId(m: Json): Json
    requires m.JObj?
  {
    OrChain([Get(m, "id"), Get(m, "ent_id"), Get(m, "person_id")])
  }

  /** Line 125: the values of the new `dim_person` row. */
  function PersonColumns(m: Json): PersonRow
    requires m.JObj?
  {
    PersonRow(Or(Get(m, "given_name"), Get(m, "first")), Or(Get(m, "family_name"), Get(m, "last")),
              Or(Get(m, "full_name"), Get(m, "name")), Get(m, "country"), m)
  }

  /** Line 124: a conflict overwrites the three names and keeps country and metadata. */
  function Renames(stored: PersonRow, incoming: PersonRow): (r: PersonRow)
    ensures r.given == incoming.given && r.family == incoming.family && r.full == incoming.full
    ensures r.country == stored.country && r.metadata == stored.metadata
  {
    stored.(given := incoming.given, family := incoming.family, full := incoming.full)
  }

  /** Line 129: `role or type or 'player'`. */
  function Role(m: Json): Json
    requires m.JObj?
  {
    OrChain([Get(m, "role"), Get(m, "type"), JStr("player")])
  }

  function PersonParams(source: Json, pid: string, m: Json): seq<Json>
    requires m.JObj?
  {
    var c := PersonColumns(m);
    [source, JStr(pid), c.given, c.family, c.full, c.country, m]
  }

  /**
   * What one member with an id wrote: the person upserted under
   * `(source, str(pid))`, and the mapping inserted if absent unless the
   * database refused it, which aborts the transaction.
   */
  predicate MemberWritten(db: Db, d: Db, source: Json, teamId: nat, rawId: int, m: Json, env: Env)
    requires m.JObj?
  {
    var key := (source, PyStr(MemberId(m), env));
    key in d.persons.index &&
    var pid := d.persons.index[key];
    Upserted(db.persons, d.persons, key, pid, PersonColumns(m), Renames) &&
    (d.aborted <==> env.rejects(MemberStmt, [JInt(teamId), JInt(pid), Role(m), JInt(rawId)])) &&
    d.members == (if d.aborted then db.members else KeyedInsertIfAbsent(db.members, (teamId, pid, Role(m)), rawId).1)
  }

  /**
   * Lines 116-136 for one member: a member without an id is skipped; the
   * person is upserted; a refused mapping insert is logged and leaves the
   * transaction aborted.
   */
  function MemberStep(db: Db, source: Json, teamId: nat, rawId: int, m: Json, env: Env): (r: Option<Db>)
    requires db.Valid()
    ensures r.Some? ==> r.value.Valid() && r.value.teams == db.teams && r.value.snapshots == db.snapshots &&
                        r.value.nextSnapshot == db.nextSnapshot
    ensures !m.JObj? ==> r.None?
    ensures m.JObj? && !Truthy(MemberId(m)) ==> r == Some(db)
    ensures m.JObj? && Truthy(MemberId(m)) ==>
              (r.None? <==> db.aborted || env.rejects(PersonStmt, PersonParams(source, PyStr(MemberId(m), env), m)))
    ensures r.Some? ==> Extends(db.members, r.value.members)
  {
    if !m.JObj? then None
    else
      var pid := MemberId(m);
      if !Truthy(pid) then Some(db)
      else
        var key := (source, PyStr(pid, env));
        if db.aborted || env.rejects(PersonStmt, PersonParams(source, key.1, m)) then None
        else
          var u := Upsert(db.persons, key, PersonColumns(m), Renames);
          if env.rejects(MemberStmt, [JInt(teamId), JInt(u.0), Role(m), JInt(rawId)]) then
            Some(db.(persons := u.1, aborted := true))
          else
            Some(db.(persons := u.1, members := KeyedInsertIfAbsent(db.members, (teamId, u.0, Role(m)), rawId).1))
  }

  /** A member with an id upserts its person and maps it, unless the database refuses the mapping. */
  lemma MemberStepWrites(db: Db, source: Json, teamId: nat, rawId: int, m: Json, env: Env)
    requires db.Valid() && m.JObj? && Truthy(MemberId(m))
    requires MemberStep(db, source, teamId, rawId, m, env).Some?
    ensures MemberWritten(db, MemberStep(db, source, teamId, rawId, m, env).value, source, teamId, rawId, m, env)
  {
    UpsertUpserted(db.persons, (source, PyStr(MemberId(m), env)), PersonColumns(m), Renames);
  }

  function MembersRun(db: Db, source: Json, teamId: nat, rawId: int, ms: seq<Json>, env: Env): (r: Option<Db>)
    requires db.Valid()
    ensures r.Some? ==> r.value.Valid() && r.value.teams == db.teams && r.value.snapshots == db.snapshots &&
                        r.value.nextSnapshot == db.nextSnapshot
    decreases |ms|
  {
    if ms == [] then Some(db)
    else
      var s := MemberStep(db, source, teamId, rawId, ms[0], env);
      if s.None? then None else MembersRun(s.value, source, teamId, rawId, ms[1..], env)
  }

  // ---------------------------------------------------------------------------
  // process_raw_row
  // ---------------------------------------------------------------------------

  /** `process_raw_row` (lines 80-138); a payload that is not a dict raises at `payload.get`. */
  function Process(start: Db, db: Db, rawId: int, p: Json, env: Env): (r: Option<(Db, Outcome)>)
    requires start.Valid() && db.Valid()
    ensures r.Some? ==> r.value.0.Valid() && r.value.1.rawId == rawId
    ensures !p.JObj? ==> r.None?
  {
    if !p.JObj? then None
    else
      var source := Source(p);
      var entId := SourceEntId(p, rawId, env);
      var t := UpsertTeam(start, db, source, entId, TeamColumns(p, entId, env), env);
      if t.None? then None
      else
        var s := InsertSnapshot(t.value.1, t.value.0, rawId, p, env);
        if s.None? then None
        else
          var ms := Roster(p);
          if ms.None? then None
          else
            var m := MembersRun(s.value.1, source, t.value.0, rawId, ms.value, env);
            if m.None? then None else Some((m.value, Outcome(rawId, t.value.0, s.value.0)))
  }

  // ---------------------------------------------------------------------------
  // run
  // ---------------------------------------------------------------------------

  datatype RawRow = RawRow(id: int, payload: Json)

  /** Lines 157-162: the row of a truthy `raw_id`, else every row `ORDER BY id`. */
  function Selected(table: seq<RawRow>, rawId: Option<int>): (rows: seq<RawRow>)
    ensures rawId.Some? && rawId.value != 0 ==> forall i :: 0 <= i < |rows| ==> rows[i].id == rawId.value
    ensures rawId.Some? && rawId.value != 0 ==> forall r :: r in table && r.id == rawId.value ==> r in rows
    ensures forall r :: r in rows ==> r in table
    decreases |table|
  {
    if !(rawId.Some? && rawId.value != 0) then
      SortedFromTable(table);
      StableSort.SortBy(table, (r: RawRow) => r.id)
    else if table == [] then []
    else (if table[0].id == rawId.value then [table[0]] else []) + Selected(table[1..], rawId)
  }

  /** `ORDER BY id` returns the rows of the table, in ascending id order. */
  lemma SortedFromTable(table: seq<RawRow>)
    ensures var rows := StableSort.SortBy(table, (r: RawRow) => r.id);
            StableSort.SortedBy(rows, (r: RawRow) => r.id) && multiset(rows) == multiset(table) &&
            forall r :: r in rows ==> r in table
  {
    var rows := StableSort.SortBy(table, (r: RawRow) => r.id);
    StableSort.SortByPermutes(table, (r: RawRow) => r.id);
    forall r | r in rows ensures r in table {
      assert r in multiset(rows);
    }
  }

  /** The results gathered before `r`'s, then `r`'s. */
  function Prefix(out: seq<Outcome>, r: (Db, seq<Outcome>, bool)): (Db, seq<Outcome>, bool)
  {
    (r.0, out + r.1, r.2)
  }

  /**
   * Lines 163-167: the rows processed in order; the state reached, the
   * results appended so far, and whether no row raised.
   */
  function RunRows(start: Db, db: Db, rows: seq<RawRow>, env: Env): (r: (Db, seq<Outcome>, bool))
    requires start.Valid() && db.Valid()
    ensures r.0.Valid()
    decreases |rows|
  {
    if rows == [] then (db, [], true)
    else
      var p := Process(start, db, rows[0].id, rows[0].payload, env);
      if p.None? then (db, [], false)
      else Prefix([p.value.1], RunRows(start, p.value.0, rows[1..], env))
  }

  /** One result per processed row, in order; all of them when no row raised. */
  lemma {:induction false} RunRowsResults(start: Db, db: Db, rows: seq<RawRow>, env: Env)
    requires start.Valid() && db.Valid()
    ensures var r := RunRows(start, db, rows, env);
            |r.1| <= |rows| && (r.2 ==> |r.1| == |rows|) && forall i :: 0 <= i < |r.1| ==> r.1[i].rawId == rows[i].id
    decreases |rows|
  {
    if rows != [] {
      var p := Process(start, db, rows[0].id, rows[0].payload, env);
      if p.Some? {
        RunRowsResults(start, p.value.0, rows[1..], env);
        PrefixResults(p.value.1, RunRows(start, p.value.0, rows[1..], env), rows);
      }
    }
  }

  lemma PrefixResults(o: Outcome, r: (Db, seq<Outcome>, bool), rows: seq<RawRow>)
    requires rows != [] && o.rawId == rows[0].id
    requires |r.1| <= |rows| - 1 && (r.2 ==> |r.1| == |rows| - 1)
    requires forall i :: 0 <= i < |r.1| ==> r.1[i].rawId == rows[1..][i].id
    ensures var q := Prefix([o], r);
            |q.1| <= |rows| && (q.2 ==> |q.1| == |rows|) && forall i :: 0 <= i < |q.1| ==> q.1[i].rawId == rows[i].id
  {
    var q := Prefix([o], r);
    forall i | 0 <= i < |q.1| ensures q.1[i].rawId == rows[i].id {
      if i > 0 { assert q.1[i] == r.1[i - 1]; }
    }
  }

  /** The state `with conn:` leaves: a commit, which rolls an aborted transaction back. */
  function Commit(start: Db, db: Db): (r: Db)
    ensures r == db || r == start
    ensures db.aborted ==> r == start
  {
    if db.aborted then start else db
  }

  /**
   * `run` (lines 150-171): the committed state, the results written to the
   * file in the `finally` block (also when a row raised), and whether the
   * run ended normally. A raise rolls the whole run back.
   */
  function Run(db: Db, table: seq<RawRow>, rawId: Option<int>, env: Env): (r: (Db, seq<Outcome>, bool))
    requires db.Valid()
    ensures r.0.Valid()
    ensures !r.2 ==> r.0 == db
    ensures |r.1| <= |Selected(table, rawId)| && (r.2 ==> |r.1| == |Selected(table, rawId)|)
    ensures forall i :: 0 <= i < |r.1| ==> r.1[i].rawId == Selected(table, rawId)[i].id
  {
    var out := RunRows(db, db, Selected(table, rawId), env);
    RunRowsResults(db, db, Selected(table, rawId), env);
    (if out.2 then Commit(db, out.0) else db, out.1, out.2)
  }

  // ---------------------------------------------------------------------------
  // Properties
  // ---------------------------------------------------------------------------

  /** Line 86: `extract_id_from_payload` adds nothing to the chain; the raw id is the last resort. */
  lemma SourceEntIdFallback(p: Json, rawId: int, env: Env)
    requires p.JObj?
    ensures var id, ent, team := Get(p, "id"), Get(p, "ent_id"), Get(p, "team_id");
            SourceEntId(p, rawId, env) ==
              PyStr(if Truthy(id) then id else if Truthy(ent) then ent else if Truthy(team) then team else JInt(rawId), env)
  {
    var x := ExtractId(p);
    var vs := [Get(p, "id"), Get(p, "ent_id"), Get(p, "team_id"), x, JInt(rawId)];
    assert OrChain(vs[3..]) == Or(x, JInt(rawId)) by { assert vs[3..][1..] == [JInt(rawId)]; }
    assert OrChain(vs[2..]) == Or(vs[2], OrChain(vs[3..])) by { assert vs[2..][1..] == vs[3..]; }
    assert OrChain(vs[1..]) == Or(vs[1], OrChain(vs[2..])) by { assert vs[1..][1..] == vs[2..]; }
    assert OrChain(vs) == Or(vs[0], OrChain(vs[1..]));
  }

  /** Every key of metadata built from the payload holds the payload's value; the ten named keys are absent. */
  lemma {:induction false} WithoutLookup(fs: seq<Field>, ks: seq<string>, k: string)
    ensures Lookup(Without(fs, ks), k) == if k in ks then None else Lookup(fs, k)
    decreases |fs|
  {
    if fs != [] {
      WithoutLookup(fs[1..], ks, k);
      var w := Without(fs[1..], ks);
      if fs[0].key in ks {
        assert Without(fs, ks) == w by { assert [] + w == w; }
      } else {
        assert Without(fs, ks) == [fs[0]] + w;
        assert ([fs[0]] + w)[1..] == w;
      }
    }
  }

  /** Lines 104-106: without `meta`/`metadata`, the metadata is the payload minus the ten column keys. */
  lemma MetadataFromPayload(p: Json, k: string)
    requires p.JObj? && Or(Get(p, "meta"), Get(p, "metadata")) == JNull
    ensures HasKey(Metadata(p), k) <==> HasKey(p, k) && k !in Excluded
    ensures HasKey(Metadata(p), k) ==> Get(Metadata(p), k) == Get(p, k)
  {
    WithoutLookup(p.fields, Excluded, k);
  }

  /** Two payloads that differ only in the order of their dicts' items, at any depth, get the same snapshot hash. */
  lemma HashKeyOrder(p: Json, q: Json, env: Env)
    requires Canonical.SameUpToKeyOrder(p, q)
    ensures Hash(p, env) == Hash(q, env)
  {
    Canonical.CanonicalKeyOrderInvariant(p, q, Canonical.Compact);
  }

  /** Whether the state after the team upsert is `db` (modern schema) or the rollback to `start`. */
  predicate Modern(db: Db, p: Json, rawId: int, env: Env)
    requires p.JObj?
  {
    var entId := SourceEntId(p, rawId, env);
    !db.aborted && !env.rejects(ModernTeamStmt, ModernParams(Source(p), entId, TeamColumns(p, entId, env)))
  }

  /**
   * Lines 110-111: every processed row appends one snapshot of its payload
   * and hash, for its team, to the state its team upsert left.
   */
  /** The `dim_team` key the row's team went under. */
  function TeamKeyOf(db: Db, p: Json, rawId: int, env: Env): TeamKey
    requires p.JObj?
  {
    if Modern(db, p, rawId, env) then ModernKey(Source(p), SourceEntId(p, rawId, env)) else LegacyKey(SourceEntId(p, rawId, env))
  }

  lemma ProcessAppendsSnapshot(start: Db, db: Db, rawId: int, p: Json, env: Env)
    requires start.Valid() && db.Valid() && p.JObj?
    requires Process(start, db, rawId, p, env).Some?
    ensures var o := Process(start, db, rawId, p, env).value;
            var base := if Modern(db, p, rawId, env) then db else start;
            var key := TeamKeyOf(db, p, rawId, env);
            o.0.snapshots == base.snapshots + [Snapshot(o.1.snapshotId, o.1.teamId, rawId, p, Hash(p, env))] &&
            key in o.0.teams.index && o.0.teams.index[key] == o.1.teamId
  {
    var entId := SourceEntId(p, rawId, env);
    var t := UpsertTeam(start, db, Source(p), entId, TeamColumns(p, entId, env), env).value;
    var s := InsertSnapshot(t.1, t.0, rawId, p, env).value;
    var m := MembersRun(s.1, Source(p), t.0, rawId, Roster(p).value, env).value;
    assert Process(start, db, rawId, p, env).value == (m, Outcome(rawId, t.0, s.0));
  }

  /**
   * The legacy fallback rolls back the transaction, so the snapshots earlier
   * rows of the run appended are gone: only this row's remains on top of `start`.
   */
  lemma FallbackDiscardsEarlierRows(start: Db, db: Db, rawId: int, p: Json, env: Env)
    requires start.Valid() && db.Valid() && p.JObj? && !Modern(db, p, rawId, env)
    requires Process(start, db, rawId, p, env).Some?
    ensures |Process(start, db, rawId, p, env).value.0.snapshots| == |start.snapshots| + 1
  {
    ProcessAppendsSnapshot(start, db, rawId, p, env);
  }

  /** A roster whose members carry no id changes nothing. */
  lemma {:induction false} MembersWithoutIds(db: Db, source: Json, teamId: nat, rawId: int, ms: seq<Json>, env: Env)
    requires db.Valid()
    requires forall i :: 0 <= i < |ms| ==> ms[i].JObj? && !Truthy(MemberId(ms[i]))
    ensures MembersRun(db, source, teamId, rawId, ms, env) == Some(db)
    decreases |ms|
  {
    if ms != [] {
      MembersWithoutIds(db, source, teamId, rawId, ms[1..], env);
    }
  }

  /** A mapping once stored keeps the raw id that first inserted it (`ON CONFLICT DO NOTHING`). */
  lemma {:induction false} MembersKeepMappings(db: Db, source: Json, teamId: nat, rawId: int, ms: seq<Json>, env: Env)
    requires db.Valid() && MembersRun(db, source, teamId, rawId, ms, env).Some?
    ensures Extends(db.members, MembersRun(db, source, teamId, rawId, ms, env).value.members)
    decreases |ms|
  {
    if ms != [] {
      var s := MemberStep(db, source, teamId, rawId, ms[0], env).value;
      MembersKeepMappings(s, source, teamId, rawId, ms[1..], env);
      ExtendsTransitive(db.members, s.members, MembersRun(s, source, teamId, rawId, ms[1..], env).value.members);
    }
  }

  /** Processing the same payload twice under the modern schema updates one team row. */
  lemma ModernTeamStable(start: Db, db: Db, source: Json, entId: string, row: TeamRow, env: Env)
    requires start.Valid() && db.Valid() && !db.aborted
    requires !env.rejects(ModernTeamStmt, ModernParams(source, entId, row))
    ensures var (id1, db1) := UpsertTeam(start, db, source, entId, row, env).value;
            var (id2, db2) := UpsertTeam(start, db1, source, entId, row, env).value;
            id1 == id2 && db2.teams.index == db1.teams.index && db2.teams.rows[id2] == Coalesced(db1.teams.rows[id1], row)
  {
  }

  // ---------------------------------------------------------------------------
  // The loops
  // ---------------------------------------------------------------------------

  /** Lines 141-147. */
  method ExtractIdFromPayload(p: Json) returns (r: Json)
    requires p.JObj?
    ensures r == ExtractId(p)
  {
    var j := 0;
    while j < |IdKeys|
      invariant j <= |IdKeys| && FirstTruthy(p, IdKeys[j..]) == FirstTruthy(p, IdKeys)
    {
      assert IdKeys[j..][1..] == IdKeys[j + 1..];
      var v := Get(p, IdKeys[j]);
      if Truthy(v) {
        return v;
      }
      j := j + 1;
    }
    return JNull;
  }

  /** Lines 115-136. */
  method MembersLoop(db: Db, source: Json, teamId: nat, rawId: int, ms: seq<Json>, env: Env) returns (r: Option<Db>)
    requires db.Valid()
    ensures r == MembersRun(db, source, teamId, rawId, ms, env)
  {
    var cur := db;
    var j := 0;
    assert ms[0..] == ms;
    while j < |ms|
      invariant j <= |ms| && cur.Valid() && MembersRun(cur, source, teamId, rawId, ms[j..], env) == MembersRun(db, source, teamId, rawId, ms, env)
    {
      assert ms[j..][1..] == ms[j + 1..];
      var step := MemberStep(cur, source, teamId, rawId, ms[j], env);
      if step.None? {
        return None;
      }
      cur := step.value;
      j := j + 1;
    }
    return Some(cur);
  }

  /** `process_raw_row(cur, raw_row)`. */
  method ProcessRawRow(start: Db, db: Db, rawId: int, p: Json, env: Env) returns (r: Option<(Db, Outcome)>)
    requires start.Valid() && db.Valid()
    ensures r == Process(start, db, rawId, p, env)
  {
    if !p.JObj? {
      return None;
    }
    var source := Source(p);
    var entId := SourceEntId(p, rawId, env);
    var team := UpsertTeam(start, db, source, entId, TeamColumns(p, entId, env), env);
    if team.None? {
      return None;
    }
    var snap := InsertSnapshot(team.value.1, team.value.0, rawId, p, env);
    if snap.None? {
      return None;
    }
    var ms := Roster(p);
    if ms.None? {
      return None;
    }
    var m := MembersLoop(snap.value.1, source, team.value.0, rawId, ms.value, env);
    if m.None? {
      return None;
    }
    return Some((m.value, Outcome(rawId, team.value.0, snap.value.0)));
  }

  lemma PrefixNothing(r: (Db, seq<Outcome>, bool))
    ensures Prefix([], r) == r
  {
    assert [] + r.1 == r.1;
  }

  lemma PrefixPrefix(out: seq<Outcome>, more: seq<Outcome>, r: (Db, seq<Outcome>, bool))
    ensures Prefix(out, Prefix(more, r)) == Prefix(out + more, r)
  {
    assert out + (more + r.1) == (out + more) + r.1;
  }

  /** Lines 163-167. */
  method RowsLoop(db: Db, rows: seq<RawRow>, env: Env) returns (r: (Db, seq<Outcome>, bool))
    requires db.Valid()
    ensures r == RunRows(db, db, rows, env)
  {
    var cur := db;
    var out: seq<Outcome> := [];
    var j := 0;
    assert rows[0..] == rows;
    PrefixNothing(RunRows(db, db, rows, env));
    while j < |rows|
      invariant j <= |rows| && cur.Valid()
      invariant RunRows(db, db, rows, env) == Prefix(out, RunRows(db, cur, rows[j..], env))
    {
      assert rows[j..][1..] == rows[j + 1..];
      var p := ProcessRawRow(db, cur, rows[j].id, rows[j].payload, env);
      if p.None? {
        assert RunRows(db, cur, rows[j..], env) == (cur, [], false);
        assert out + [] == out;
        return (cur, out, false);
      }
      assert RunRows(db, cur, rows[j..], env) == Prefix([p.value.1], RunRows(db, p.value.0, rows[j + 1..], env));
      PrefixPrefix(out, [p.value.1], RunRows(db, p.value.0, rows[j + 1..], env));
      cur := p.value.0;
      out := out + [p.value.1];
      j := j + 1;
    }
    assert rows[j..] == [];
    assert out + [] == out;
    return (cur, out, true);
  }

  /** `run(raw_id)` (lines 150-171). */
  method RunTransform(db: Db, table: seq<RawRow>, rawId: Option<int>, env: Env) returns (db': Db, results: seq<Outcome>, ok: bool)
    requires db.Valid()
    ensures (db', results, ok) == Run(db, table, rawId, env)
  {
    var out := RowsLoop(db, Selected(table, rawId), env);
    db', results, ok := (if out.2 then Commit(db, out.0) else db), out.1, out.2;
  }
}
