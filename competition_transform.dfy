/**
 * `src/SilverCompetitionTransform.py`: raw competition payloads normalised
 * into `dim_competition` with its stages, the dimensions it refers to
 * (registration type, classification, hosting team, range, contact) and the
 * invited-team bridge.
 *
 * Every dimension is looked up first and inserted only when missing. A
 * dimension keyed by the payload's own id (state, range, contact) is a table
 * keyed by that id; one with a serial key found through `external_id`
 * (registration type, classification, team, competition) is a `Serial`
 * table indexed by the lookup value. A raised exception is `None`: `run`
 * then leaves the transaction, and so the database, as it was.
 */
module CompetitionTransform {
  import opened Wrappers
  import opened Json
  import opened Tables
  import TransformFacts
  import TransformDimensions

  /**
   * The columns `dim_team` has decides how a team is found (lines 38-79):
   * by `external_id`, by the older `ent_id` (with optional `paper_email` and
   * `org` columns), or by `team_name`.
   */
  datatype TeamSchema = ByExternalId | ByEntId(paperEmail: bool, org: bool) | ByName

  /** `json.loads`, `str()` of a list or dict, and the schema of `dim_team`. */
  datatype Env = Env(parseJson: string -> Option<Json>, repr: Json -> string, schema: TeamSchema)

  type Natural = Keyed<Json, seq<Json>>
  type Dim = Serial<Json, seq<Json>>

  datatype Db = Db(states: Natural, ranges: Natural, contacts: Natural,
                   regTypes: Dim, classes: Dim, teams: Dim, competitions: Dim,
                   stages: map<(nat, nat), Json>, invited: set<(nat, nat)>)
  {
    predicate Valid()
    {
      regTypes.Valid() && classes.Valid() && teams.Valid() && competitions.Valid()
    }
  }

  // ---------------------------------------------------------------------------
  // Get-or-create dimensions
  // ---------------------------------------------------------------------------

  /** The columns the natural-key dimensions store after their id (lines 28, 89, 102). */
  const StateFields: seq<string> := ["region_id", "name", "abbr"]
  const RangeFields: seq<string> := ["name", "phone", "email", "url"]
  const ContactFields: seq<string> := ["fname", "lname", "full_name"]
  /** The columns of `dim_registration_type` and `dim_classification` after `external_id` (lines 117, 130). */
  const CodeFields: seq<string> := ["cat_id", "value", "descr"]

  /**
   * `upsert_dim_state`, `upsert_dim_range`, `upsert_dim_contact`: a falsy
   * object or a None id gives None; otherwise the id names the row, which is
   * inserted when missing and left alone when present. A truthy non-dict
   * raises in `.get`.
   */
  function NaturalDim(t: Natural, obj: Json, fields: seq<string>): (r: Option<(Natural, Option<Json>)>)
    ensures r.None? <==> Truthy(obj) && !obj.JObj?
    ensures r.Some? && r.value.1.None? ==> r.value.0 == t
    ensures r.Some? && r.value.1.Some? ==>
              var id := r.value.1.value;
              obj.JObj? && id == Get(obj, "id") && id != JNull && id in r.value.0.rows &&
              (id in t.rows ==> r.value.0 == t) &&
              (id !in t.rows ==> r.value.0.rows == t.rows[id := [id] + GetAll(obj, fields)])
  {
    if !Truthy(obj) then Some((t, None))
    else if !obj.JObj? then None
    else
      var id := Get(obj, "id");
      if id == JNull then Some((t, None))
      else Some((KeyedInsertIfAbsent(t, id, [id] + GetAll(obj, fields)).1, Some(id)))
  }

  /** A lookup by a conflict-free key, then `INSERT … RETURNING` when it found nothing. */
  function GetOrInsert(t: Dim, k: Json, cols: seq<Json>): (r: (nat, Dim))
    requires t.Valid()
    ensures r.1.Valid() && k in r.1.index && r.1.index[k] == r.0
    ensures k in t.index ==> r == (t.index[k], t)
    ensures k !in t.index ==> r.0 !in t.rows && r.1.index == t.index[k := r.0] && r.1.rows == t.rows[r.0 := cols]
  {
    if k in t.index then (t.index[k], t) else Upsert(t, k, cols, Keep)
  }

  /** `upsert_registration_type`, `upsert_classification` (lines 107-133). */
  function CodeDim(t: Dim, obj: Json): (r: Option<(Dim, Option<nat>)>)
    requires t.Valid()
    ensures r.None? <==> Truthy(obj) && !obj.JObj?
    ensures r.Some? ==> r.value.0.Valid() && SubIndex(t, r.value.0)
    ensures r.Some? && r.value.1.None? ==> r.value.0 == t
    ensures r.Some? && r.value.1.Some? ==>
              obj.JObj? && Get(obj, "id") != JNull && Get(obj, "id") in r.value.0.index &&
              r.value.0.index[Get(obj, "id")] == r.value.1.value &&
              (Get(obj, "id") in t.index ==> r.value.0 == t)
  {
    if !Truthy(obj) then Some((t, None))
    else if !obj.JObj? then None
    else
      var ext := Get(obj, "id");
      if ext == JNull then Some((t, None))
      else var (id, t') := GetOrInsert(t, ext, [ext] + GetAll(obj, CodeFields)); Some((t', Some(id)))
  }

  /** `str(ext)` as the `ent_id` column. */
  function EntId(ext: Json, env: Env): string
  {
    if TransformDimensions.Hashable(ext) then TransformDimensions.Str(ext) else env.repr(ext)
  }

  /** The value a team is looked up by under each schema; None when it is NULL and so matches nothing. */
  function TeamKey(team: Json, env: Env): Option<Json>
    requires team.JObj?
  {
    match env.schema
    case ByExternalId => Some(Get(team, "id"))
    case ByEntId(_, _) => Some(JStr(EntId(Get(team, "id"), env)))
    case ByName => if Get(team, "name") == JNull then None else Some(Get(team, "name"))
  }

  /** The columns a new team row gets under each schema (lines 49-50, 57-67, 76). */
  function TeamColumns(team: Json, env: Env): seq<Json>
    requires team.JObj?
  {
    var ext := Get(team, "id");
    match env.schema
    case ByExternalId =>
      [ext] + GetAll(team, ["name", "paper_name", "paper_email", "org", "external_id", "autocomplete_id"]) + [JNull]
    case ByEntId(paperEmail, org) =>
      [JStr(EntId(ext, env)), Get(team, "name")] + (if paperEmail then [Get(team, "paper_email")] else []) +
      (if org then [Get(team, "org")] else [])
    case ByName => [Get(team, "name")]
  }

  /**
   * `upsert_dim_team` (lines 32-79): None for a falsy object or a None id;
   * otherwise the team found by its lookup value, or a new row. Under the
   * name schema a team whose name is None matches no row, so it is inserted
   * every time.
   */
  function TeamDim(t: Dim, obj: Json, env: Env): (r: Option<(Dim, Option<nat>)>)
    requires t.Valid()
    ensures r.None? <==> Truthy(obj) && !obj.JObj?
    ensures r.Some? ==> r.value.0.Valid() && SubIndex(t, r.value.0)
    ensures r.Some? && r.value.1.None? ==> r.value.0 == t
    ensures r.Some? && r.value.1.Some? ==>
              obj.JObj? && Get(obj, "id") != JNull &&
              var key := TeamKey(obj, env);
              var id := r.value.1.value;
              (key.Some? ==> key.value in r.value.0.index && r.value.0.index[key.value] == id &&
                             (key.value in t.index ==> r.value.0 == t)) &&
              (key.None? ==> id !in t.rows && r.value.0.index == t.index && r.value.0.rows == t.rows[id := TeamColumns(obj, env)])
  {
    if !Truthy(obj) then Some((t, None))
    else if !obj.JObj? then None
    else if Get(obj, "id") == JNull then Some((t, None))
    else
      match TeamKey(obj, env)
      case Some(key) => var (id, t') := GetOrInsert(t, key, TeamColumns(obj, env)); Some((t', Some(id)))
      case None => var (id, t') := UpsertNullable(t, None, TeamColumns(obj, env), Keep); Some((t', Some(id)))
  }

  /** A second call with the same object returns the same key and changes nothing (unless the name schema meets a None name). */
  lemma DimRepeat(db: Db, obj: Json, env: Env)
    requires db.Valid()
    ensures var r := CodeDim(db.regTypes, obj);
            r.Some? ==> CodeDim(r.value.0, obj) == r
    ensures var r := TeamDim(db.teams, obj, env);
            r.Some? && (obj.JObj? ==> TeamKey(obj, env).Some?) ==> TeamDim(r.value.0, obj, env) == r
    ensures var r := NaturalDim(db.ranges, obj, RangeFields);
            r.Some? ==> NaturalDim(r.value.0, obj, RangeFields) == r
  {
  }

  // ---------------------------------------------------------------------------
  // The competition and its stages
  // ---------------------------------------------------------------------------

  /** `a or b or c`. */
  lemma Or3(a: Json, b: Json, c: Json)
    ensures OrChain([a, b, c]) == Or(a, Or(b, c))
  {
    assert [a, b, c][1..] == [b, c] && [b, c][1..] == [c];
    assert OrChain([c]) == c;
    assert OrChain([b, c]) == Or(b, c);
  }

  /** Line 139: `id or external_id or raw_id`. */
  function ExternalId(item: Json, rawId: int): (ext: Json)
    requires item.JObj?
    ensures Truthy(Get(item, "id")) ==> ext == Get(item, "id")
    ensures !Truthy(Get(item, "id")) && Truthy(Get(item, "external_id")) ==> ext == Get(item, "external_id")
    ensures !Truthy(Get(item, "id")) && !Truthy(Get(item, "external_id")) ==> ext == JInt(rawId)
  {
    Or3(Get(item, "id"), Get(item, "external_id"), JInt(rawId));
    OrChain([Get(item, "id"), Get(item, "external_id"), JInt(rawId)])
  }

  /** The three keys a stage name may sit under, for stages 1 to 4 (lines 179-181). */
  const StageKeys: seq<(string, string, string)> :=
    [("stage_one", "stage_1", "stage_1_name"), ("stage_two", "stage_2", "stage_2_name"),
     ("stage_three", "stage_3", "stage_3_name"), ("stage_four", "stage_4", "stage_4_name")]

  /** Line 181: `stage_<word> or stage_<n> or stage_<n>_name` for stage `n`. */
  function StageName(item: Json, n: nat): Json
    requires item.JObj? && 1 <= n <= 4
  {
    var keys := StageKeys[n - 1];
    OrChain([Get(item, keys.0), Get(item, keys.1), Get(item, keys.2)])
  }

  /** The stage name is the first truthy of its three keys, else the value of the last. */
  lemma StageNameFallback(item: Json, n: nat)
    requires item.JObj? && 1 <= n <= 4
    ensures var (a, b, c) := StageKeys[n - 1];
            (Truthy(Get(item, a)) ==> StageName(item, n) == Get(item, a)) &&
            (!Truthy(Get(item, a)) && Truthy(Get(item, b)) ==> StageName(item, n) == Get(item, b)) &&
            (!Truthy(Get(item, a)) && !Truthy(Get(item, b)) ==> StageName(item, n) == Get(item, c))
  {
    var keys := StageKeys[n - 1];
    Or3(Get(item, keys.0), Get(item, keys.1), Get(item, keys.2));
  }

  /** The stage rows for stages `1 .. n - 1` of a new competition `id`: those with a truthy name. */
  function StagesBelow(id: nat, item: Json, n: nat): map<(nat, nat), Json>
    requires item.JObj? && 1 <= n <= 5
    decreases n
  {
    if n == 1 then map[]
    else
      var p := StagesBelow(id, item, n - 1);
      var v := StageName(item, n - 1);
      if Truthy(v) then p[(id, n - 1) := v] else p
  }

  /** The stage rows of a new competition `id`. */
  function StagePlan(id: nat, item: Json): map<(nat, nat), Json>
    requires item.JObj?
  {
    StagesBelow(id, item, 5)
  }

  /** Stage `m` is written exactly when its name is truthy, with that name, and nothing else is. */
  lemma {:induction false} StagesBelowMeaning(id: nat, item: Json, n: nat)
    requires item.JObj? && 1 <= n <= 5
    ensures forall key :: key in StagesBelow(id, item, n) ==> key.0 == id && 1 <= key.1 < n
    ensures forall m :: 1 <= m < n ==> ((id, m) in StagesBelow(id, item, n) <==> Truthy(StageName(item, m)))
    ensures forall m :: 1 <= m < n && Truthy(StageName(item, m)) ==> StagesBelow(id, item, n)[(id, m)] == StageName(item, m)
    decreases n
  {
    if n > 1 {
      StagesBelowMeaning(id, item, n - 1);
      var p := StagesBelow(id, item, n - 1);
      var v := StageName(item, n - 1);
      var q := StagesBelow(id, item, n);
      assert q == if Truthy(v) then p[(id, n - 1) := v] else p;
      forall m | 1 <= m < n
        ensures ((id, m) in q <==> Truthy(StageName(item, m)))
        ensures Truthy(StageName(item, m)) ==> q[(id, m)] == StageName(item, m)
      {
        if m < n - 1 {
          assert (id, m) != (id, n - 1);
        }
      }
    }
  }

  /** The stage rows of a new competition: stage `m` in 1..4 exactly when its name is truthy. */
  lemma StagePlanMeaning(id: nat, item: Json)
    requires item.JObj?
    ensures forall key :: key in StagePlan(id, item) ==> key.0 == id && 1 <= key.1 <= 4
    ensures forall m :: 1 <= m <= 4 ==> ((id, m) in StagePlan(id, item) <==> Truthy(StageName(item, m)))
    ensures forall m :: 1 <= m <= 4 && Truthy(StageName(item, m)) ==> StagePlan(id, item)[(id, m)] == StageName(item, m)
  {
    StagesBelowMeaning(id, item, 5);
  }

  /** The header columns after `external_id` (lines 146-152). */
  function CompetitionColumns(item: Json, ext: Json, refs: seq<Json>): seq<Json>
    requires item.JObj?
  {
    [ext, Or(Get(item, "name"), Get(item, "title")), Get(item, "org"), Get(item, "type"),
     Or(Get(item, "post"), Get(item, "post_label")), Get(item, "status"), Get(item, "start_date"), Get(item, "end_date")] + refs
  }

  /**
   * `upsert_competition` (lines 137-187): a competition already stored under
   * its external id is returned and nothing is written; a new one gets its
   * header row and its stage rows.
   */
  function UpsertCompetition(db: Db, item: Json, rawId: int, refs: seq<Json>): (r: (Db, nat))
    requires db.Valid() && item.JObj?
    ensures r.0.Valid() && Sub(db, r.0)
    ensures var ext := ExternalId(item, rawId);
            ext in r.0.competitions.index && r.0.competitions.index[ext] == r.1 &&
            (ext in db.competitions.index ==> r.0 == db) &&
            (ext !in db.competitions.index ==>
               r.1 !in db.competitions.rows &&
               r.0 == db.(competitions := r.0.competitions, stages := db.stages + StagePlan(r.1, item)) &&
               r.0.competitions.rows == db.competitions.rows[r.1 := CompetitionColumns(item, ext, refs)])
  {
    var ext := ExternalId(item, rawId);
    if ext in db.competitions.index then (db, db.competitions.index[ext])
    else
      var (id, comps) := GetOrInsert(db.competitions, ext, CompetitionColumns(item, ext, refs));
      (db.(competitions := comps, stages := db.stages + StagePlan(id, item)), id)
  }

  // ---------------------------------------------------------------------------
  // One item
  // ---------------------------------------------------------------------------

  /** Lines 215-216: `contact or primary_contact`. */
  function ContactOf(item: Json): Json
    requires item.JObj?
  {
    Or(Get(item, "contact"), Get(item, "primary_contact"))
  }

  /** A serial key, or None, as a column value. */
  function Ref(id: Option<nat>): Json
  {
    if id.Some? then JInt(id.value) else JNull
  }

  /** The dimensions an item refers to, in the order lines 207-218 look them up. */
  datatype DimKind = RegistrationType | Classification | HostingTeam | RangeDim | ContactDim

  const DimOrder: seq<DimKind> := [RegistrationType, Classification, HostingTeam, RangeDim, ContactDim]

  /** One lookup of lines 207-218 and the value it gives for the header. The contact is looked up only when it is a dict. */
  function DimStep(db: Db, item: Json, kind: DimKind, env: Env): (r: Option<(Db, Json)>)
    requires db.Valid() && item.JObj?
    ensures r.Some? ==> r.value.0.Valid() && Sub(db, r.value.0)
    ensures r.Some? ==> r.value.0.competitions == db.competitions && r.value.0.stages == db.stages &&
                        r.value.0.invited == db.invited && r.value.0.states == db.states
    ensures kind == ContactDim && !ContactOf(item).JObj? ==> r == Some((db, JNull))
    ensures kind == ContactDim && ContactOf(item).JObj? ==> r.Some? && r.value.0 == db.(contacts := r.value.0.contacts)
  {
    match kind
    case RegistrationType =>
      var o := CodeDim(db.regTypes, Get(item, "registration_type"));
      if o.None? then None else Some((db.(regTypes := o.value.0), Ref(o.value.1)))
    case Classification =>
      var o := CodeDim(db.classes, Get(item, "classification"));
      if o.None? then None else Some((db.(classes := o.value.0), Ref(o.value.1)))
    case HostingTeam =>
      var o := TeamDim(db.teams, Get(item, "hosting_team"), env);
      if o.None? then None else Some((db.(teams := o.value.0), Ref(o.value.1)))
    case RangeDim =>
      var o := NaturalDim(db.ranges, Get(item, "range"), RangeFields);
      if o.None? then None else Some((db.(ranges := o.value.0), o.value.1.GetOr(JNull)))
    case ContactDim =>
      var contact := ContactOf(item);
      if !contact.JObj? then Some((db, JNull))
      else var o := NaturalDim(db.contacts, contact, ContactFields).value; Some((db.(contacts := o.0), o.1.GetOr(JNull)))
  }

  /** The lookups of `kinds` in order, and the header values they give. */
  function DimsRun(db: Db, item: Json, kinds: seq<DimKind>, env: Env): (r: Option<(Db, seq<Json>)>)
    requires db.Valid() && item.JObj?
    ensures r.Some? ==> r.value.0.Valid() && |r.value.1| == |kinds|
    decreases |kinds|
  {
    if kinds == [] then Some((db, []))
    else match DimStep(db, item, kinds[0], env)
      case None => None
      case Some((db1, v)) =>
        match DimsRun(db1, item, kinds[1..], env)
        case None => None
        case Some((db2, vs)) => Some((db2, [v] + vs))
  }

  /**
   * Lines 207-218: the five lookups of one item and the header values
   * (registration type, classification, team, range, contact).
   */
  function ItemDims(db: Db, item: Json, env: Env): (r: Option<(Db, seq<Json>)>)
    requires db.Valid() && item.JObj?
    ensures r.Some? ==> r.value.0.Valid() && |r.value.1| == 5
  {
    DimsRun(db, item, DimOrder, env)
  }

  /** Lines 224-227: one invited team looked up, and its bridge row inserted when absent (`if tid:`). */
  function InvitedStep(db: Db, compId: nat, t: Json, env: Env): (r: Option<Db>)
    requires db.Valid()
    ensures r.Some? ==> r.value.Valid() && Sub(db, r.value) &&
                        (forall p :: p in r.value.invited - db.invited ==> p.0 == compId) &&
                        r.value == db.(teams := r.value.teams, invited := r.value.invited)
  {
    var o := TeamDim(db.teams, t, env);
    if o.None? then None
    else
      var tid := o.value.1;
      Some(db.(teams := o.value.0, invited := if tid.Some? && tid.value != 0 then db.invited + {(compId, tid.value)} else db.invited))
  }

  /** Lines 223-227: the invited teams in order. */
  function InvitedRun(db: Db, compId: nat, ts: seq<Json>, env: Env): (r: Option<Db>)
    requires db.Valid()
    ensures r.Some? ==> r.value.Valid() && db.invited <= r.value.invited &&
                        (forall p :: p in r.value.invited - db.invited ==> p.0 == compId) &&
                        r.value == db.(teams := r.value.teams, invited := r.value.invited)
    decreases |ts|
  {
    if ts == [] then Some(db)
    else
      var r1 := InvitedStep(db, compId, ts[0], env);
      if r1.None? then None else InvitedRun(r1.value, compId, ts[1..], env)
  }

  /** `users_invited_teams or []`, iterated; None when it is a truthy non-iterable. */
  function InvitedOf(item: Json): Option<seq<Json>>
    requires item.JObj?
  {
    TransformFacts.Iterate(Or(Get(item, "users_invited_teams"), JArr([])))
  }

  /** Lines 205-229: one item; a non-dict item raises in its first `.get`. */
  function ItemStep(db: Db, rawId: int, item: Json, env: Env): (r: Option<(Db, nat)>)
    requires db.Valid()
    ensures r.Some? ==> r.value.0.Valid()
  {
    if !item.JObj? then None
    else
      var dims := ItemDims(db, item, env);
      if dims.None? then None
      else
        var c := UpsertCompetition(dims.value.0, item, rawId, dims.value.1);
        var ts := InvitedOf(item);
        if ts.None? then None
        else
          var db3 := InvitedRun(c.0, c.1, ts.value, env);
          if db3.None? then None else Some((db3.value, c.1))
  }

  /** Lines 204-229 over the items from the first: one competition id per item, in order. */
  function ItemsRun(db: Db, rawId: int, items: seq<Json>, env: Env): (r: Option<(Db, seq<nat>)>)
    requires db.Valid()
    ensures r.Some? ==> r.value.0.Valid() && |r.value.1| == |items|
    decreases |items|
  {
    if items == [] then Some((db, []))
    else
      var step := ItemStep(db, rawId, items[0], env);
      if step.None? then None
      else After([step.value.1], ItemsRun(step.value.0, rawId, items[1..], env))
  }

  /** The ids of the items already processed ahead of those of a run over the rest. */
  function After(ids: seq<nat>, r: Option<(Db, seq<nat>)>): (a: Option<(Db, seq<nat>)>)
    ensures a.Some? <==> r.Some?
    ensures a.Some? ==> a.value.0 == r.value.0 && a.value.1 == ids + r.value.1
  {
    if r.None? then None else Some((r.value.0, ids + r.value.1))
  }

  /** Lines 190-191: a dict payload is used as it is, a string is parsed, anything else makes `json.loads` raise. */
  function Decode(raw: Json, env: Env): Option<Json>
  {
    if raw.JObj? then Some(raw) else if raw.JStr? then env.parseJson(raw.s) else None
  }

  /** Lines 196-203: the `data` list of a dict, a top-level list, or the payload alone. */
  function Items(payload: Json): (items: seq<Json>)
    ensures payload.JObj? && HasKey(payload, "data") && Get(payload, "data").JArr? ==> items == Get(payload, "data").items
    ensures payload.JArr? ==> items == payload.items
    ensures !payload.JArr? && !(payload.JObj? && HasKey(payload, "data") && Get(payload, "data").JArr?) ==> items == [payload]
  {
    if payload.JObj? && HasKey(payload, "data") && Get(payload, "data").JArr? then Get(payload, "data").items
    else if payload.JArr? then payload.items
    else [payload]
  }

  /** `process_raw_row` (lines 189-231): the competition ids of the payload's items, or None when it raised. */
  function Process(db: Db, rawId: int, raw: Json, env: Env): (r: Option<(Db, seq<nat>)>)
    requires db.Valid()
    ensures r.Some? ==> r.value.0.Valid() && Decode(raw, env).Some? && |r.value.1| == |Items(Decode(raw, env).value)|
  {
    match Decode(raw, env)
    case None => None
    case Some(payload) => ItemsRun(db, rawId, Items(payload), env)
  }

  // ---------------------------------------------------------------------------
  // run
  // ---------------------------------------------------------------------------

  /** A row of `raw_competition`. */
  datatype RawRow = RawRow(id: int, payload: Json)

  /** Lines 238-243: the row of `raw_id` when it is given and truthy, else every row. */
  function Selected(table: seq<RawRow>, rawId: Option<int>): (rows: seq<RawRow>)
    ensures rawId.Some? && rawId.value != 0 ==> forall i :: 0 <= i < |rows| ==> rows[i].id == rawId.value
    ensures rawId.Some? && rawId.value != 0 ==> forall i :: 0 <= i < |table| && table[i].id == rawId.value ==> table[i] in rows
    ensures !(rawId.Some? && rawId.value != 0) ==> rows == table
    ensures forall r :: r in rows ==> r in table
    decreases |table|
  {
    if !(rawId.Some? && rawId.value != 0) then table
    else if table == [] then []
    else (if table[0].id == rawId.value then [table[0]] else []) + Selected(table[1..], rawId)
  }

  /** Lines 249-253: one `{raw_id, competition_id}` entry per competition id. */
  function Tagged(rawId: int, ids: seq<nat>): (r: seq<(int, nat)>)
    ensures |r| == |ids| && forall i :: 0 <= i < |ids| ==> r[i] == (rawId, ids[i])
  {
    seq(|ids|, i requires 0 <= i < |ids| => (rawId, ids[i]))
  }

  /** The entries of the rows already run ahead of those of a run over the rest. */
  function Extend(out: seq<(int, nat)>, r: Option<(Db, seq<(int, nat)>)>): Option<(Db, seq<(int, nat)>)>
  {
    if r.None? then None else Some((r.value.0, out + r.value.1))
  }

  /** Lines 245-253: the selected rows in order, and the entries of the result file. */
  function RunRows(db: Db, rows: seq<RawRow>, env: Env): (r: Option<(Db, seq<(int, nat)>)>)
    requires db.Valid()
    ensures r.Some? ==> r.value.0.Valid()
    decreases |rows|
  {
    if rows == [] then Some((db, []))
    else
      var p := Process(db, rows[0].id, rows[0].payload, env);
      if p.None? then None else Extend(Tagged(rows[0].id, p.value.1), RunRows(p.value.0, rows[1..], env))
  }

  /** Every entry names the raw id of a row that was run. */
  lemma {:induction false} RunRowsIds(db: Db, rows: seq<RawRow>, env: Env)
    requires db.Valid() && RunRows(db, rows, env).Some?
    ensures forall e :: e in RunRows(db, rows, env).value.1 ==> exists row :: row in rows && row.id == e.0
    decreases |rows|
  {
    if rows != [] {
      var p := Process(db, rows[0].id, rows[0].payload, env).value;
      var rest := RunRows(p.0, rows[1..], env);
      RunRowsIds(p.0, rows[1..], env);
      var tagged := Tagged(rows[0].id, p.1);
      assert RunRows(db, rows, env).value.1 == tagged + rest.value.1;
      forall e | e in tagged + rest.value.1 ensures exists row :: row in rows && row.id == e.0 {
        if e in tagged {
          assert rows[0] in rows;
        } else {
          var row :| row in rows[1..] && row.id == e.0;
          assert row in rows;
        }
      }
    }
  }

  /**
   * `run(raw_id)` (lines 234-258): inside one transaction, so an exception
   * leaves the database exactly as it was and writes no result file.
   */
  function Run(db: Db, table: seq<RawRow>, rawId: Option<int>, env: Env): (r: (Db, Option<seq<(int, nat)>>))
    requires db.Valid()
    ensures r.0.Valid()
    ensures r.1.None? ==> r.0 == db
  {
    var rows := Selected(table, rawId);
    var out := RunRows(db, rows, env);
    if out.None? then (db, None) else (out.value.0, Some(out.value.1))
  }

  /** Given a truthy raw id, every entry of the result is for that raw row. */
  lemma RunSelectedOnly(db: Db, table: seq<RawRow>, rawId: Option<int>, env: Env)
    requires db.Valid() && rawId.Some? && rawId.value != 0 && Run(db, table, rawId, env).1.Some?
    ensures forall e :: e in Run(db, table, rawId, env).1.value ==> e.0 == rawId.value
  {
    RunRowsIds(db, Selected(table, rawId), env);
  }

  // ---------------------------------------------------------------------------
  // Reprocessing changes nothing
  // ---------------------------------------------------------------------------

  /** Database `b` holds every lookup entry of `a`, under the same keys. */
  predicate Sub(a: Db, b: Db)
  {
    a.states.rows.Keys <= b.states.rows.Keys && a.ranges.rows.Keys <= b.ranges.rows.Keys &&
    a.contacts.rows.Keys <= b.contacts.rows.Keys &&
    SubIndex(a.regTypes, b.regTypes) && SubIndex(a.classes, b.classes) && SubIndex(a.teams, b.teams) &&
    SubIndex(a.competitions, b.competitions) && a.invited <= b.invited
  }

  predicate SubIndex(a: Dim, b: Dim)
  {
    forall k :: k in a.index ==> k in b.index && b.index[k] == a.index[k]
  }

  lemma SubTrans(a: Db, b: Db, c: Db)
    requires Sub(a, b) && Sub(b, c)
    ensures Sub(a, c)
  {
  }

  lemma SubRefl(a: Db)
    ensures Sub(a, a)
  {
  }

  /** The schemas under which a team lookup always finds the row an earlier insert made. */
  predicate Relookup(env: Env)
  {
    !env.schema.ByName?
  }

  lemma CodeDimFixed(t: Dim, obj: Json, b: Dim)
    requires t.Valid() && b.Valid() && CodeDim(t, obj).Some? && SubIndex(CodeDim(t, obj).value.0, b)
    ensures CodeDim(b, obj) == Some((b, CodeDim(t, obj).value.1))
  {
  }

  lemma NaturalDimFixed(t: Natural, obj: Json, fields: seq<string>, b: Natural)
    requires NaturalDim(t, obj, fields).Some? && NaturalDim(t, obj, fields).value.0.rows.Keys <= b.rows.Keys
    ensures NaturalDim(b, obj, fields) == Some((b, NaturalDim(t, obj, fields).value.1))
  {
  }

  /** After one lookup, the same lookup on any database holding its entries finds them and writes nothing. */
  lemma DimStepFixed(db: Db, item: Json, kind: DimKind, env: Env, b: Db)
    requires db.Valid() && b.Valid() && item.JObj? && Relookup(env) && DimStep(db, item, kind, env).Some?
    requires Sub(DimStep(db, item, kind, env).value.0, b)
    ensures DimStep(b, item, kind, env).Some? && DimStep(b, item, kind, env).value.0 == b
  {
    match kind
    case RegistrationType => CodeDimFixed(db.regTypes, Get(item, "registration_type"), b.regTypes);
    case Classification => CodeDimFixed(db.classes, Get(item, "classification"), b.classes);
    case HostingTeam => TeamDimFixed(db.teams, Get(item, "hosting_team"), env, b.teams);
    case RangeDim => NaturalDimFixed(db.ranges, Get(item, "range"), RangeFields, b.ranges);
    case ContactDim =>
      if ContactOf(item).JObj? {
        NaturalDimFixed(db.contacts, ContactOf(item), ContactFields, b.contacts);
      }
  }

  lemma {:induction false} DimsGrow(db: Db, item: Json, kinds: seq<DimKind>, env: Env)
    requires db.Valid() && item.JObj? && DimsRun(db, item, kinds, env).Some?
    ensures Sub(db, DimsRun(db, item, kinds, env).value.0)
    decreases |kinds|
  {
    if kinds == [] {
      SubRefl(db);
    } else {
      var db1 := DimStep(db, item, kinds[0], env).value.0;
      DimsGrow(db1, item, kinds[1..], env);
      assert DimsRun(db, item, kinds, env).value.0 == DimsRun(db1, item, kinds[1..], env).value.0;
      SubTrans(db, db1, DimsRun(db1, item, kinds[1..], env).value.0);
    }
  }

  lemma {:induction false} DimsFixed(db: Db, item: Json, kinds: seq<DimKind>, env: Env, b: Db)
    requires db.Valid() && b.Valid() && item.JObj? && Relookup(env) && DimsRun(db, item, kinds, env).Some?
    requires Sub(DimsRun(db, item, kinds, env).value.0, b)
    ensures DimsRun(b, item, kinds, env).Some? && DimsRun(b, item, kinds, env).value.0 == b
    decreases |kinds|
  {
    if kinds != [] {
      var db1 := DimStep(db, item, kinds[0], env).value.0;
      var db2 := DimsRun(db1, item, kinds[1..], env).value.0;
      assert DimsRun(db, item, kinds, env).value.0 == db2;
      DimsGrow(db1, item, kinds[1..], env);
      SubTrans(db1, db2, b);
      DimStepFixed(db, item, kinds[0], env, b);
      DimsFixed(db1, item, kinds[1..], env, b);
    }
  }

  /** The lookups write nothing but dimension rows. */
  lemma {:induction false} DimsFrame(db: Db, item: Json, kinds: seq<DimKind>, env: Env)
    requires db.Valid() && item.JObj? && DimsRun(db, item, kinds, env).Some?
    ensures var d := DimsRun(db, item, kinds, env).value.0;
            d.competitions == db.competitions && d.stages == db.stages && d.invited == db.invited && d.states == db.states
    decreases |kinds|
  {
    if kinds != [] {
      var db1 := DimStep(db, item, kinds[0], env).value.0;
      DimsFrame(db1, item, kinds[1..], env);
      assert DimsRun(db, item, kinds, env).value.0 == DimsRun(db1, item, kinds[1..], env).value.0;
    }
  }

  /** A team looked up once is found again, with the same key, on any table holding its entry. */
  lemma TeamDimFixed(t: Dim, obj: Json, env: Env, b: Dim)
    requires t.Valid() && b.Valid() && Relookup(env) && TeamDim(t, obj, env).Some?
    requires SubIndex(TeamDim(t, obj, env).value.0, b)
    ensures TeamDim(b, obj, env) == Some((b, TeamDim(t, obj, env).value.1))
  {
    if obj.JObj? && Get(obj, "id") != JNull {
      assert TeamKey(obj, env).Some?;
    }
  }

  lemma InvitedStepFixed(db: Db, compId: nat, t: Json, env: Env, b: Db)
    requires db.Valid() && b.Valid() && Relookup(env) && InvitedStep(db, compId, t, env).Some?
    requires Sub(InvitedStep(db, compId, t, env).value, b)
    ensures InvitedStep(b, compId, t, env) == Some(b)
  {
    var o := TeamDim(db.teams, t, env);
    TeamDimFixed(db.teams, t, env, b.teams);
    var tid := o.value.1;
    assert (if tid.Some? && tid.value != 0 then b.invited + {(compId, tid.value)} else b.invited) == b.invited;
  }

  lemma {:induction false} InvitedGrow(db: Db, compId: nat, ts: seq<Json>, env: Env)
    requires db.Valid() && InvitedRun(db, compId, ts, env).Some?
    ensures Sub(db, InvitedRun(db, compId, ts, env).value)
    decreases |ts|
  {
    if ts == [] {
      SubRefl(db);
    } else {
      var db1 := InvitedStep(db, compId, ts[0], env).value;
      InvitedGrow(db1, compId, ts[1..], env);
      assert InvitedRun(db, compId, ts, env) == InvitedRun(db1, compId, ts[1..], env);
      SubTrans(db, db1, InvitedRun(db1, compId, ts[1..], env).value);
    }
  }

  lemma {:induction false} InvitedFixed(db: Db, compId: nat, ts: seq<Json>, env: Env, b: Db)
    requires db.Valid() && b.Valid() && Relookup(env) && InvitedRun(db, compId, ts, env).Some?
    requires Sub(InvitedRun(db, compId, ts, env).value, b)
    ensures InvitedRun(b, compId, ts, env) == Some(b)
    decreases |ts|
  {
    if ts != [] {
      var db1 := InvitedStep(db, compId, ts[0], env).value;
      assert InvitedRun(db, compId, ts, env) == InvitedRun(db1, compId, ts[1..], env);
      InvitedGrow(db1, compId, ts[1..], env);
      SubTrans(db1, InvitedRun(db1, compId, ts[1..], env).value, b);
      InvitedFixed(db1, compId, ts[1..], env, b);
      InvitedStepFixed(db, compId, ts[0], env, b);
    }
  }

  /** One item only adds entries. */
  lemma ItemStepGrow(db: Db, rawId: int, item: Json, env: Env)
    requires db.Valid() && ItemStep(db, rawId, item, env).Some?
    ensures Sub(db, ItemStep(db, rawId, item, env).value.0)
  {
    var (db1, refs) := ItemDims(db, item, env).value;
    DimsGrow(db, item, DimOrder, env);
    var (db2, compId) := UpsertCompetition(db1, item, rawId, refs);
    InvitedGrow(db2, compId, InvitedOf(item).value, env);
    SubTrans(db, db1, db2);
    SubTrans(db, db2, ItemStep(db, rawId, item, env).value.0);
  }

  /** An item processed once is found again on any database holding its entries: same id, nothing written. */
  lemma ItemStepFixed(db: Db, rawId: int, item: Json, env: Env, b: Db)
    requires db.Valid() && b.Valid() && Relookup(env) && ItemStep(db, rawId, item, env).Some?
    requires Sub(ItemStep(db, rawId, item, env).value.0, b)
    ensures ItemStep(b, rawId, item, env) == Some((b, ItemStep(db, rawId, item, env).value.1))
  {
    var (db1, refs) := ItemDims(db, item, env).value;
    var (db2, compId) := UpsertCompetition(db1, item, rawId, refs);
    var ts := InvitedOf(item).value;
    var db3 := InvitedRun(db2, compId, ts, env).value;
    assert ItemStep(db, rawId, item, env) == Some((db3, compId));
    InvitedGrow(db2, compId, ts, env);
    SubTrans(db2, db3, b);
    InvitedFixed(db2, compId, ts, env, b);
    assert Sub(db1, db2);
    SubTrans(db1, db2, b);
    DimsFixed(db, item, DimOrder, env, b);
    var (b1, refsB) := ItemDims(b, item, env).value;
    assert UpsertCompetition(b1, item, rawId, refsB) == (b, compId);
  }

  lemma {:induction false} ItemsFixed(db: Db, rawId: int, items: seq<Json>, env: Env, b: Db)
    requires db.Valid() && b.Valid() && Relookup(env) && ItemsRun(db, rawId, items, env).Some?
    requires Sub(ItemsRun(db, rawId, items, env).value.0, b)
    ensures ItemsRun(b, rawId, items, env) == Some((b, ItemsRun(db, rawId, items, env).value.1))
    decreases |items|
  {
    if items != [] {
      var (db1, id) := ItemStep(db, rawId, items[0], env).value;
      var (db2, ids) := ItemsRun(db1, rawId, items[1..], env).value;
      assert ItemsRun(db, rawId, items, env) == Some((db2, [id] + ids));
      ItemsGrow(db1, rawId, items[1..], env);
      SubTrans(db1, db2, b);
      ItemStepFixed(db, rawId, items[0], env, b);
      ItemsFixed(db1, rawId, items[1..], env, b);
    }
  }

  lemma {:induction false} ItemsGrow(db: Db, rawId: int, items: seq<Json>, env: Env)
    requires db.Valid() && ItemsRun(db, rawId, items, env).Some?
    ensures Sub(db, ItemsRun(db, rawId, items, env).value.0)
    decreases |items|
  {
    if items == [] {
      SubRefl(db);
    } else {
      var (db1, id) := ItemStep(db, rawId, items[0], env).value;
      ItemStepGrow(db, rawId, items[0], env);
      ItemsGrow(db1, rawId, items[1..], env);
      assert ItemsRun(db, rawId, items, env).value.0 == ItemsRun(db1, rawId, items[1..], env).value.0;
      SubTrans(db, db1, ItemsRun(db1, rawId, items[1..], env).value.0);
    }
  }

  /**
   * Processing a raw row again, once it went through, returns the same
   * competition ids and leaves every table as it was: each lookup now finds
   * the row the first pass made, so nothing is inserted and no stage is
   * rewritten. Under the name schema a team with a None name is inserted
   * afresh each time, so that schema is excluded.
   */
  lemma ProcessIdempotent(db: Db, rawId: int, raw: Json, env: Env)
    requires db.Valid() && Relookup(env) && Process(db, rawId, raw, env).Some?
    ensures var r1 := Process(db, rawId, raw, env).value;
            Process(r1.0, rawId, raw, env) == Some(r1)
  {
    var payload := Decode(raw, env).value;
    var r1 := ItemsRun(db, rawId, Items(payload), env).value;
    SubRefl(r1.0);
    ItemsFixed(db, rawId, Items(payload), env, r1.0);
  }

  // ---------------------------------------------------------------------------
  // The loops
  // ---------------------------------------------------------------------------

  lemma UnionUpdate<K, V>(a: map<K, V>, b: map<K, V>, k: K, v: V)
    ensures (a + b)[k := v] == a + b[k := v]
  {
  }

  /** Lines 178-185: the stage loop. */
  method WriteStages(stages: map<(nat, nat), Json>, id: nat, item: Json) returns (stages': map<(nat, nat), Json>)
    requires item.JObj?
    ensures stages' == stages + StagePlan(id, item)
  {
    stages' := stages;
    assert stages + map[] == stages;
    for n := 1 to 5
      invariant stages' == stages + StagesBelow(id, item, n)
    {
      var val := StageName(item, n);
      if Truthy(val) {
        UnionUpdate(stages, StagesBelow(id, item, n), (id, n), val);
        stages' := stages'[(id, n) := val];
      }
    }
  }

  /** `upsert_competition`. */
  method UpsertCompetitionRow(db: Db, item: Json, rawId: int, refs: seq<Json>) returns (db': Db, compId: nat)
    requires db.Valid() && item.JObj?
    ensures (db', compId) == UpsertCompetition(db, item, rawId, refs)
  {
    var ext := ExternalId(item, rawId);
    if ext in db.competitions.index {
      return db, db.competitions.index[ext];
    }
    var (id, comps) := GetOrInsert(db.competitions, ext, CompetitionColumns(item, ext, refs));
    compId := id;
    var stages := WriteStages(db.stages, compId, item);
    db' := db.(competitions := comps, stages := stages);
  }

  /** Lines 222-227. */
  method InvitedLoop(db: Db, compId: nat, ts: seq<Json>, env: Env) returns (db': Option<Db>)
    requires db.Valid()
    ensures db' == InvitedRun(db, compId, ts, env)
  {
    var cur := db;
    var j := 0;
    assert ts[0..] == ts;
    while j < |ts|
      invariant j <= |ts| && cur.Valid() && InvitedRun(cur, compId, ts[j..], env) == InvitedRun(db, compId, ts, env)
    {
      assert ts[j..][1..] == ts[j + 1..];
      var team := TeamDim(cur.teams, ts[j], env);
      if team.None? {
        return None;
      }
      var bridge := cur.invited;
      var tid := team.value.1;
      if tid.Some? && tid.value != 0 {
        bridge := bridge + {(compId, tid.value)};
      }
      cur := cur.(teams := team.value.0, invited := bridge);
      j := j + 1;
    }
    assert ts[j..] == [];
    return Some(cur);
  }

  /** Lines 234-258: the loop over the selected rows. */
  method RunLoop(db: Db, table: seq<RawRow>, rawId: Option<int>, env: Env) returns (db': Db, results: Option<seq<(int, nat)>>)
    requires db.Valid()
    ensures (db', results) == Run(db, table, rawId, env)
  {
    var rows := Selected(table, rawId);
    var out := RowsLoop(db, rows, env);
    if out.None? {
      return db, None;
    }
    return out.value.0, Some(out.value.1);
  }

  /** Lines 245-253. */
  method RowsLoop(db: Db, rows: seq<RawRow>, env: Env) returns (r: Option<(Db, seq<(int, nat)>)>)
    requires db.Valid()
    ensures r == RunRows(db, rows, env)
  {
    var cur := db;
    var out: seq<(int, nat)> := [];
    var j := 0;
    assert rows[0..] == rows;
    ExtendNothing(RunRows(db, rows, env));
    while j < |rows|
      invariant j <= |rows| && cur.Valid()
      invariant RunRows(db, rows, env) == Extend(out, RunRows(cur, rows[j..], env))
    {
      assert rows[j..][1..] == rows[j + 1..];
      var ids := ProcessRawRow(cur, rows[j].id, rows[j].payload, env);
      if ids.None? {
        assert RunRows(cur, rows[j..], env) == None;
        return None;
      }
      var tagged := Tagged(rows[j].id, ids.value.1);
      assert RunRows(cur, rows[j..], env) == Extend(tagged, RunRows(ids.value.0, rows[j + 1..], env));
      ExtendExtend(out, tagged, RunRows(ids.value.0, rows[j + 1..], env));
      cur := ids.value.0;
      out := out + tagged;
      j := j + 1;
    }
    assert rows[j..] == [];
    assert out + [] == out;
    return Some((cur, out));
  }

  /** Lines 205-229: one item. */
  method ProcessItem(db: Db, rawId: int, item: Json, env: Env) returns (r: Option<(Db, nat)>)
    requires db.Valid()
    ensures r == ItemStep(db, rawId, item, env)
  {
    if !item.JObj? {
      return None;
    }
    var dims := ItemDims(db, item, env);
    if dims.None? {
      return None;
    }
    var db2, compId := UpsertCompetitionRow(dims.value.0, item, rawId, dims.value.1);
    var ts := InvitedOf(item);
    if ts.None? {
      return None;
    }
    var db3 := InvitedLoop(db2, compId, ts.value, env);
    if db3.None? {
      return None;
    }
    return Some((db3.value, compId));
  }

  lemma ExtendNothing(r: Option<(Db, seq<(int, nat)>)>)
    ensures Extend([], r) == r
  {
    if r.Some? {
      assert [] + r.value.1 == r.value.1;
    }
  }

  lemma ExtendExtend(out: seq<(int, nat)>, more: seq<(int, nat)>, r: Option<(Db, seq<(int, nat)>)>)
    ensures Extend(out, Extend(more, r)) == Extend(out + more, r)
  {
    if r.Some? {
      assert out + (more + r.value.1) == (out + more) + r.value.1;
    }
  }

  lemma AfterNothing(r: Option<(Db, seq<nat>)>)
    ensures After([], r) == r
  {
    if r.Some? {
      assert [] + r.value.1 == r.value.1;
    }
  }

  /** The ids of two processed items' runs, one after the other. */
  lemma AfterAfter(ids: seq<nat>, id: nat, r: Option<(Db, seq<nat>)>)
    ensures After(ids, After([id], r)) == After(ids + [id], r)
  {
    if r.Some? {
      assert ids + ([id] + r.value.1) == (ids + [id]) + r.value.1;
    }
  }

  /** `process_raw_row(cur, raw_row)`. */
  method ProcessRawRow(db: Db, rawId: int, raw: Json, env: Env) returns (r: Option<(Db, seq<nat>)>)
    requires db.Valid()
    ensures r == Process(db, rawId, raw, env)
  {
    var payload := Decode(raw, env);
    if payload.None? {
      return None;
    }
    var items := Items(payload.value);
    var cur := db;
    var ids := [];
    var j := 0;
    assert items[0..] == items;
    AfterNothing(ItemsRun(db, rawId, items, env));
    while j < |items|
      invariant j <= |items| && cur.Valid()
      invariant ItemsRun(db, rawId, items, env) == After(ids, ItemsRun(cur, rawId, items[j..], env))
    {
      assert items[j..][1..] == items[j + 1..];
      var step := ProcessItem(cur, rawId, items[j], env);
      if step.None? {
        assert ItemsRun(cur, rawId, items[j..], env) == None;
        return None;
      }
      assert ItemsRun(cur, rawId, items[j..], env) == After([step.value.1], ItemsRun(step.value.0, rawId, items[j + 1..], env));
      AfterAfter(ids, step.value.1, ItemsRun(step.value.0, rawId, items[j + 1..], env));
      cur := step.value.0;
      ids := ids + [step.value.1];
      j := j + 1;
    }
    assert items[j..] == [];
    assert ids + [] == ids;
    return Some((cur, ids));
  }
}
