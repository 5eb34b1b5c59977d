/**
 * `src/SilverScheduleTransform.py`: one raw schedule payload normalised into
 * `silver_schedule` and its slot, flight and lineup tables.
 *
 * Every table here is keyed by its `ON CONFLICT` columns and carries a
 * serial surrogate key that `RETURNING` hands back. An insert draws the next
 * serial value also when it then conflicts, as PostgreSQL evaluates column
 * defaults before it checks for conflicts. Whether the database refuses a
 * statement (a value psycopg2 cannot adapt, a type error) is an oracle of
 * the statement and its column values. A `raise` is modelled as the state
 * reached when it happens together with no result.
 */
module ScheduleTransform {
  import opened Wrappers
  import opened Json
  import TransformFacts

  /** A stored row: its surrogate key and the columns last written. */
  datatype Row = Row(id: nat, cols: seq<Json>)

  /** A table keyed by its conflict columns `K`; `next` is the serial sequence. */
  datatype Table<K> = Table(rows: map<K, Row>, next: nat)
  {
    /** Every surrogate key is below `next` and no two rows share one. */
    predicate Valid()
    {
      (forall k :: k in rows ==> rows[k].id < next) &&
      (forall k1, k2 :: k1 in rows && k2 in rows && k1 != k2 ==> rows[k1].id != rows[k2].id)
    }

    /**
     * `INSERT … ON CONFLICT (k) DO UPDATE SET <every column> … RETURNING id`:
     * the row of `k` gets the new columns and keeps its surrogate key, or is
     * added under a fresh one.
     */
    function Upsert(k: K, cols: seq<Json>): (r: (Table<K>, nat))
      ensures r.0.rows == rows[k := Row(r.1, cols)] && r.0.next == next + 1
      ensures k in rows ==> r.1 == rows[k].id
      ensures Valid() && k !in rows ==> forall k2 :: k2 in rows ==> rows[k2].id != r.1
      ensures Valid() ==> r.0.Valid()
    {
      var id := if k in rows then rows[k].id else next;
      (Table(rows[k := Row(id, cols)], next + 1), id)
    }
  }

  /** The four tables: `silver_schedule` by `raw_id`, the others by `(parent id, index)`. */
  datatype Db = Db(schedules: Table<int>, slots: Table<(nat, nat)>, flights: Table<(nat, nat)>,
                   lineups: Table<(nat, nat)>)
  {
    predicate Valid()
    {
      schedules.Valid() && slots.Valid() && flights.Valid() && lineups.Valid()
    }
  }

  /** The four statements, for the oracle that says whether the database refuses one. */
  datatype Stmt = ScheduleStmt | SlotStmt | FlightStmt | LineupStmt

  datatype Env = Env(rejects: (Stmt, seq<Json>) -> bool)

  /** The payload keys each statement stores, in column order (lines 30, 36-41, 54-58, 71-76). */
  const ScheduleFields: seq<string> :=
    ["id", "name", "generated", "primary_contact", "host_team", "range_contact", "location_name", "range_name",
     "location_phone", "location_email", "notes", "sub_label"]
  const SlotFields: seq<string> := ["rid", "name", "number", "discipline", "stage", "expanded"]
  const FlightFields: seq<string> := ["rid", "flight", "time", "date", "location"]
  const LineupFields: seq<string> := ["station", "is_open", "exists", "name", "team", "class"]

  /** `obj.get(f)` for each listed key of a dict. */
  function Columns(obj: Json, fields: seq<string>): (r: seq<Json>)
    ensures obj.JObj? ==> |r| == |fields| && forall i :: 0 <= i < |fields| ==> r[i] == Get(obj, fields[i])
  {
    if obj.JObj? then GetAll(obj, fields) else []
  }

  /** `x or []`, iterated: None when a truthy value is not iterable (a number or `True`). */
  function ListOrEmpty(v: Json): Option<seq<Json>>
  {
    TransformFacts.Iterate(if Truthy(v) then v else JArr([]))
  }

  /** The list stored under `key` of a dict, with the same fallback. */
  function ListAt(obj: Json, key: string): Option<seq<Json>>
    requires obj.JObj?
  {
    ListOrEmpty(Get(obj, key))
  }

  // ---------------------------------------------------------------------------
  // Which rows a call writes
  // ---------------------------------------------------------------------------

  /**
   * Table `b` is table `a` with the planned columns written: the planned keys
   * are added or overwritten, every other row is as it was, and no existing
   * row changes its surrogate key. Nothing is deleted.
   */
  predicate Overlay<K>(a: map<K, Row>, b: map<K, Row>, plan: map<K, seq<Json>>)
  {
    b.Keys == a.Keys + plan.Keys &&
    (forall k :: k in a ==> b[k].id == a[k].id) &&
    (forall k :: k in plan ==> b[k].cols == plan[k]) &&
    (forall k :: k in a && k !in plan ==> b[k] == a[k])
  }

  lemma OverlayUpsert<K>(t: Table<K>, k: K, cols: seq<Json>)
    ensures Overlay(t.rows, t.Upsert(k, cols).0.rows, map[k := cols])
  {
  }

  lemma OverlayNothing<K>(a: map<K, Row>)
    ensures Overlay(a, a, map[])
  {
  }

  /** Writing plan `p` and then plan `q` writes `p + q`, the later write winning. */
  lemma OverlayThen<K>(a: map<K, Row>, b: map<K, Row>, c: map<K, Row>, p: map<K, seq<Json>>, q: map<K, seq<Json>>)
    requires Overlay(a, b, p) && Overlay(b, c, q)
    ensures Overlay(a, c, p + q)
  {
  }

  /** Writing a plan the table already holds changes no row. */
  lemma OverlayFixed<K>(a: map<K, Row>, b: map<K, Row>, p: map<K, seq<Json>>)
    requires Overlay(a, b, p)
    requires forall k :: k in p ==> k in a && a[k].cols == p[k]
    ensures b == a
  {
    forall k | k in a ensures b[k] == a[k] {
      if k in p {
        assert b[k] == Row(b[k].id, b[k].cols);
      }
    }
  }

  /** The rows `enumerate(xs, start=k)` writes under parent `parent`: index `k + j` gets the columns of `xs[j]`. */
  function Plan(parent: nat, xs: seq<Json>, k: nat, fields: seq<string>): map<(nat, nat), seq<Json>>
    decreases |xs|
  {
    if xs == [] then map[] else map[(parent, k) := Columns(xs[0], fields)] + Plan(parent, xs[1..], k + 1, fields)
  }

  /** The first item's row is at index `k`. */
  lemma PlanHead(parent: nat, xs: seq<Json>, k: nat, fields: seq<string>)
    requires xs != []
    ensures (parent, k) in Plan(parent, xs, k, fields) && Plan(parent, xs, k, fields)[(parent, k)] == Columns(xs[0], fields)
  {
    PlanKeys(parent, xs[1..], k + 1, fields);
    assert (parent, k) !in Plan(parent, xs[1..], k + 1, fields);
  }

  /** Planned rows are the indices `k .. k + |xs| - 1`, each with its own item's columns. */
  lemma {:induction false} PlanAt(parent: nat, xs: seq<Json>, k: nat, fields: seq<string>, j: nat)
    requires j < |xs|
    ensures (parent, k + j) in Plan(parent, xs, k, fields) && Plan(parent, xs, k, fields)[(parent, k + j)] == Columns(xs[j], fields)
    decreases j
  {
    if j == 0 {
      PlanHead(parent, xs, k, fields);
    } else {
      var key := (parent, k + j);
      PlanAt(parent, xs[1..], k + 1, fields, j - 1);
      assert xs[1..][j - 1] == xs[j];
      var rest := Plan(parent, xs[1..], k + 1, fields);
      assert key in rest && rest[key] == Columns(xs[j], fields);
      assert Plan(parent, xs, k, fields) == map[(parent, k) := Columns(xs[0], fields)] + rest;
    }
  }

  /** ... and no other key: every planned row is under `parent`, at an index in `k .. k + |xs| - 1`. */
  lemma {:induction false} PlanKeys(parent: nat, xs: seq<Json>, k: nat, fields: seq<string>)
    ensures forall key :: key in Plan(parent, xs, k, fields) ==> key.0 == parent && k <= key.1 < k + |xs|
    decreases |xs|
  {
    if xs != [] {
      PlanKeys(parent, xs[1..], k + 1, fields);
    }
  }

  // ---------------------------------------------------------------------------
  // Flights and lineups
  // ---------------------------------------------------------------------------

  /** Whether every item is a dict whose statement the database accepts. */
  predicate ItemsOk(xs: seq<Json>, fields: seq<string>, stmt: Stmt, env: Env)
    decreases |xs|
  {
    xs == [] || (xs[0].JObj? && !env.rejects(stmt, Columns(xs[0], fields)) && ItemsOk(xs[1..], fields, stmt, env))
  }

  /**
   * Lines 96-97 (flights) or 100-101 (lineup): each item upserted under
   * `(parent, k)`, `(parent, k + 1)`, …; an item that is not a dict raises in
   * its `.get`, a refused statement raises too. The result says whether it
   * raised.
   */
  function ItemsRun(t: Table<(nat, nat)>, parent: nat, xs: seq<Json>, k: nat, fields: seq<string>, stmt: Stmt, env: Env)
    : (r: (Table<(nat, nat)>, bool))
    ensures t.Valid() ==> r.0.Valid()
    decreases |xs|
  {
    if xs == [] then (t, false)
    else if !xs[0].JObj? then (t, true)
    else
      var cols := Columns(xs[0], fields);
      if env.rejects(stmt, cols) then (t, true)
      else ItemsRun(t.Upsert((parent, k), cols).0, parent, xs[1..], k + 1, fields, stmt, env)
  }

  /** The items raise exactly when one is not a dict or refused; otherwise exactly the planned rows are written. */
  lemma {:induction false} ItemsRunWrites(t: Table<(nat, nat)>, parent: nat, xs: seq<Json>, k: nat, fields: seq<string>,
                                          stmt: Stmt, env: Env)
    ensures var r := ItemsRun(t, parent, xs, k, fields, stmt, env);
            (r.1 <==> !ItemsOk(xs, fields, stmt, env)) && (!r.1 ==> Overlay(t.rows, r.0.rows, Plan(parent, xs, k, fields)))
    decreases |xs|
  {
    if xs == [] {
      OverlayNothing(t.rows);
    } else if xs[0].JObj? && !env.rejects(stmt, Columns(xs[0], fields)) {
      var cols := Columns(xs[0], fields);
      var t1 := t.Upsert((parent, k), cols).0;
      ItemsRunWrites(t1, parent, xs[1..], k + 1, fields, stmt, env);
      var r := ItemsRun(t1, parent, xs[1..], k + 1, fields, stmt, env);
      assert ItemsRun(t, parent, xs, k, fields, stmt, env) == r;
      if !r.1 {
        OverlayUpsert(t, (parent, k), cols);
        OverlayThen(t.rows, t1.rows, r.0.rows, map[(parent, k) := cols], Plan(parent, xs[1..], k + 1, fields));
      }
    }
  }

  // ---------------------------------------------------------------------------
  // Slots
  // ---------------------------------------------------------------------------

  /** Whether one slot goes through: a dict, an accepted statement, and flights and lineup that go through. */
  predicate SlotOk(s: Json, env: Env)
  {
    s.JObj? && !env.rejects(SlotStmt, Columns(s, SlotFields)) &&
    ListAt(s, "flights").Some? && ItemsOk(ListAt(s, "flights").value, FlightFields, FlightStmt, env) &&
    ListAt(s, "lineup").Some? && ItemsOk(ListAt(s, "lineup").value, LineupFields, LineupStmt, env)
  }

  predicate SlotsOk(slots: seq<Json>, env: Env)
    decreases |slots|
  {
    slots == [] || (SlotOk(slots[0], env) && SlotsOk(slots[1..], env))
  }

  /** Lines 93-101 for slot number `i` of schedule `sched`. */
  function SlotStep(db: Db, sched: nat, i: nat, s: Json, env: Env): (r: (Db, bool))
    ensures r.0.schedules == db.schedules
    ensures db.Valid() ==> r.0.Valid()
  {
    if !s.JObj? then (db, true)
    else
      var cols := Columns(s, SlotFields);
      if env.rejects(SlotStmt, cols) then (db, true)
      else
        var (slots, slotId) := db.slots.Upsert((sched, i), cols);
        var db1 := db.(slots := slots);
        match ListAt(s, "flights")
        case None => (db1, true)
        case Some(fs) =>
          var (flights, raised) := ItemsRun(db1.flights, slotId, fs, 1, FlightFields, FlightStmt, env);
          var db2 := db1.(flights := flights);
          if raised then (db2, true)
          else match ListAt(s, "lineup")
            case None => (db2, true)
            case Some(ls) =>
              var (lineups, raised') := ItemsRun(db2.lineups, slotId, ls, 1, LineupFields, LineupStmt, env);
              (db2.(lineups := lineups), raised')
  }

  /** Lines 92-101: the slots from index `i` on. */
  function SlotsRun(db: Db, sched: nat, slots: seq<Json>, i: nat, env: Env): (r: (Db, bool))
    ensures r.0.schedules == db.schedules
    ensures db.Valid() ==> r.0.Valid()
    decreases |slots|
  {
    if slots == [] then (db, false)
    else
      var r1 := SlotStep(db, sched, i, slots[0], env);
      if r1.1 then r1 else SlotsRun(r1.0, sched, slots[1..], i + 1, env)
  }

  /** The list under `key` of a slot, or none. */
  function ItemsOf(s: Json, key: string): seq<Json>
  {
    if s.JObj? && ListAt(s, key).Some? then ListAt(s, key).value else []
  }

  /** The surrogate key of `key` in `rows`. */
  function IdAt(rows: map<(nat, nat), Row>, key: (nat, nat)): nat
  {
    if key in rows then rows[key].id else 0
  }

  /**
   * The flight (or lineup) rows the slots from index `i` write: each slot's
   * items under that slot's surrogate key in `slotRows`, numbered from 1.
   */
  function ChildPlan(slotRows: map<(nat, nat), Row>, sched: nat, slots: seq<Json>, i: nat, key: string,
                     fields: seq<string>): map<(nat, nat), seq<Json>>
    decreases |slots|
  {
    if slots == [] then map[]
    else Plan(IdAt(slotRows, (sched, i)), ItemsOf(slots[0], key), 1, fields) +
         ChildPlan(slotRows, sched, slots[1..], i + 1, key, fields)
  }

  /** What a slot run that does not raise has written. */
  predicate SlotsWritten(db: Db, r: Db, sched: nat, slots: seq<Json>, i: nat)
  {
    Overlay(db.slots.rows, r.slots.rows, Plan(sched, slots, i, SlotFields)) &&
    Overlay(db.flights.rows, r.flights.rows, ChildPlan(r.slots.rows, sched, slots, i, "flights", FlightFields)) &&
    Overlay(db.lineups.rows, r.lineups.rows, ChildPlan(r.slots.rows, sched, slots, i, "lineup", LineupFields))
  }

  lemma HeadTail<T>(xs: seq<T>)
    requires xs != []
    ensures [xs[0]] + xs[1..] == xs
  {
  }

  lemma UnionNothing<K, V>(m: map<K, V>)
    ensures m + map[] == m
  {
  }

  /** The rows of a first item and those of the rest. */
  lemma PlanCons(parent: nat, x: Json, rest: seq<Json>, k: nat, fields: seq<string>)
    ensures Plan(parent, [x] + rest, k, fields) == map[(parent, k) := Columns(x, fields)] + Plan(parent, rest, k + 1, fields)
    ensures Plan(parent, [x], k, fields) == map[(parent, k) := Columns(x, fields)]
  {
    var all := [x] + rest;
    assert all[0] == x && all[1..] == rest && [x][1..] == [];
    UnionNothing(map[(parent, k) := Columns(x, fields)]);
  }

  /** The child rows of a first slot and those of the rest. */
  lemma ChildPlanCons(rows: map<(nat, nat), Row>, sched: nat, s: Json, rest: seq<Json>, i: nat, key: string,
                      fields: seq<string>)
    ensures ChildPlan(rows, sched, [s] + rest, i, key, fields) ==
            Plan(IdAt(rows, (sched, i)), ItemsOf(s, key), 1, fields) + ChildPlan(rows, sched, rest, i + 1, key, fields)
    ensures ChildPlan(rows, sched, [s], i, key, fields) == Plan(IdAt(rows, (sched, i)), ItemsOf(s, key), 1, fields)
  {
    var all := [s] + rest;
    assert all[0] == s && all[1..] == rest && [s][1..] == [];
    UnionNothing(Plan(IdAt(rows, (sched, i)), ItemsOf(s, key), 1, fields));
  }

  /** The rows one slot writes, from what each of its statements wrote. */
  lemma SlotWritten(db: Db, r: Db, sched: nat, i: nat, s: Json, slotId: nat)
    requires Overlay(db.slots.rows, r.slots.rows, map[(sched, i) := Columns(s, SlotFields)])
    requires (sched, i) in r.slots.rows && r.slots.rows[(sched, i)].id == slotId
    requires Overlay(db.flights.rows, r.flights.rows, Plan(slotId, ItemsOf(s, "flights"), 1, FlightFields))
    requires Overlay(db.lineups.rows, r.lineups.rows, Plan(slotId, ItemsOf(s, "lineup"), 1, LineupFields))
    ensures SlotsWritten(db, r, sched, [s], i)
  {
    PlanCons(sched, s, [], i, SlotFields);
    ChildPlanCons(r.slots.rows, sched, s, [], i, "flights", FlightFields);
    ChildPlanCons(r.slots.rows, sched, s, [], i, "lineup", LineupFields);
  }

  /** One slot raises exactly when it does not go through, and writes its row, its flights and its lineup. */
  lemma SlotStepWrites(db: Db, sched: nat, i: nat, s: Json, env: Env)
    ensures var r := SlotStep(db, sched, i, s, env);
            (r.1 <==> !SlotOk(s, env)) && (!r.1 ==> SlotsWritten(db, r.0, sched, [s], i))
  {
    if s.JObj? && !env.rejects(SlotStmt, Columns(s, SlotFields)) {
      var cols := Columns(s, SlotFields);
      var (slots, slotId) := db.slots.Upsert((sched, i), cols);
      var db1 := db.(slots := slots);
      var fs := ListAt(s, "flights");
      if fs.Some? {
        ItemsRunWrites(db1.flights, slotId, fs.value, 1, FlightFields, FlightStmt, env);
        var (flights, raised) := ItemsRun(db1.flights, slotId, fs.value, 1, FlightFields, FlightStmt, env);
        var ls := ListAt(s, "lineup");
        if !raised && ls.Some? {
          ItemsRunWrites(db1.lineups, slotId, ls.value, 1, LineupFields, LineupStmt, env);
          var (lineups, raised') := ItemsRun(db1.lineups, slotId, ls.value, 1, LineupFields, LineupStmt, env);
          var r := SlotStep(db, sched, i, s, env);
          assert r == (Db(db.schedules, slots, flights, lineups), raised');
          if !raised' {
            OverlayUpsert(db.slots, (sched, i), cols);
            SlotWritten(db, r.0, sched, i, s, slotId);
          }
        }
      }
    }
  }

  /** The child rows of slot `i` followed by those of the slots after it. */
  lemma ChildPlanThen(a: map<(nat, nat), Row>, b: map<(nat, nat), Row>, c: map<(nat, nat), Row>,
                      mid: map<(nat, nat), Row>, last: map<(nat, nat), Row>,
                      sched: nat, s: Json, rest: seq<Json>, i: nat, key: string, fields: seq<string>)
    requires (sched, i) in mid && (sched, i) in last && last[(sched, i)].id == mid[(sched, i)].id
    requires Overlay(a, b, ChildPlan(mid, sched, [s], i, key, fields))
    requires Overlay(b, c, ChildPlan(last, sched, rest, i + 1, key, fields))
    ensures Overlay(a, c, ChildPlan(last, sched, [s] + rest, i, key, fields))
  {
    ChildPlanCons(mid, sched, s, rest, i, key, fields);
    ChildPlanCons(last, sched, s, rest, i, key, fields);
    OverlayThen(a, b, c, ChildPlan(mid, sched, [s], i, key, fields), ChildPlan(last, sched, rest, i + 1, key, fields));
  }

  /** Running slot `i` and then the rest from `i + 1`: the written rows compose. */
  lemma SlotsWrittenThen(db: Db, mid: Db, r: Db, sched: nat, s: Json, rest: seq<Json>, i: nat)
    requires SlotsWritten(db, mid, sched, [s], i) && SlotsWritten(mid, r, sched, rest, i + 1)
    ensures SlotsWritten(db, r, sched, [s] + rest, i)
  {
    PlanCons(sched, s, rest, i, SlotFields);
    OverlayThen(db.slots.rows, mid.slots.rows, r.slots.rows, Plan(sched, [s], i, SlotFields), Plan(sched, rest, i + 1, SlotFields));
    assert (sched, i) in mid.slots.rows;
    ChildPlanThen(db.flights.rows, mid.flights.rows, r.flights.rows, mid.slots.rows, r.slots.rows,
                  sched, s, rest, i, "flights", FlightFields);
    ChildPlanThen(db.lineups.rows, mid.lineups.rows, r.lineups.rows, mid.slots.rows, r.slots.rows,
                  sched, s, rest, i, "lineup", LineupFields);
  }

  /** The slots raise exactly when one does not go through; otherwise the planned rows are written. */
  lemma {:induction false} SlotsRunWrites(db: Db, sched: nat, slots: seq<Json>, i: nat, env: Env)
    ensures var r := SlotsRun(db, sched, slots, i, env);
            (r.1 <==> !SlotsOk(slots, env)) && (!r.1 ==> SlotsWritten(db, r.0, sched, slots, i))
    decreases |slots|
  {
    if slots == [] {
      OverlayNothing(db.slots.rows);
      OverlayNothing(db.flights.rows);
      OverlayNothing(db.lineups.rows);
    } else {
      SlotStepWrites(db, sched, i, slots[0], env);
      var r1 := SlotStep(db, sched, i, slots[0], env);
      if !r1.1 {
        SlotsRunWrites(r1.0, sched, slots[1..], i + 1, env);
        var r := SlotsRun(r1.0, sched, slots[1..], i + 1, env);
        assert SlotsRun(db, sched, slots, i, env) == r;
        if !r.1 {
          HeadTail(slots);
          SlotsWrittenThen(db, r1.0, r.0, sched, slots[0], slots[1..], i);
        }
      }
    }
  }

  // ---------------------------------------------------------------------------
  // process_raw_row
  // ---------------------------------------------------------------------------

  /** The database after one raw row, and `schedule_id` of the returned dict (None when the call raised). */
  datatype Processed = Processed(db: Db, scheduleId: Option<nat>)

  /** Whether `process_raw_row` goes through for a payload; it does not depend on what is stored. */
  predicate RowOk(payload: Json, env: Env)
  {
    payload.JObj? && !env.rejects(ScheduleStmt, Columns(payload, ScheduleFields)) &&
    ListAt(payload, "slots").Some? && SlotsOk(ListAt(payload, "slots").value, env)
  }

  /** The slots of a payload, or none. */
  function SlotsOf(payload: Json): seq<Json>
  {
    if payload.JObj? && ListAt(payload, "slots").Some? then ListAt(payload, "slots").value else []
  }

  /** Lines 88-102. */
  function Process(db: Db, rawId: int, payload: Json, env: Env): (r: Processed)
    ensures db.Valid() ==> r.db.Valid()
  {
    if !payload.JObj? then Processed(db, None)
    else
      var cols := Columns(payload, ScheduleFields);
      if env.rejects(ScheduleStmt, cols) then Processed(db, None)
      else
        var (schedules, id) := db.schedules.Upsert(rawId, cols);
        var db1 := db.(schedules := schedules);
        match ListAt(payload, "slots")
        case None => Processed(db1, None)
        case Some(slots) =>
          var (db2, raised) := SlotsRun(db1, id, slots, 1, env);
          if raised then Processed(db2, None) else Processed(db2, Some(id))
  }

  /**
   * `process_raw_row` returns exactly when the payload goes through. It then
   * has upserted the schedule under `raw_id` (a row that was there keeps its
   * `schedule_id`), given the slots indices 1..n in list order, and numbered
   * every slot's flights and lineup from 1 under that slot's key; every other
   * row is as it was and nothing is deleted.
   */
  lemma ProcessWrites(db: Db, rawId: int, payload: Json, env: Env)
    ensures var r := Process(db, rawId, payload, env);
            (r.scheduleId.Some? <==> RowOk(payload, env)) &&
            (r.scheduleId.Some? ==>
               var id := r.scheduleId.value;
               var slots := SlotsOf(payload);
               Overlay(db.schedules.rows, r.db.schedules.rows, map[rawId := Columns(payload, ScheduleFields)]) &&
               r.db.schedules.rows[rawId].id == id &&
               (rawId in db.schedules.rows ==> id == db.schedules.rows[rawId].id) &&
               Overlay(db.slots.rows, r.db.slots.rows, Plan(id, slots, 1, SlotFields)) &&
               Overlay(db.flights.rows, r.db.flights.rows, ChildPlan(r.db.slots.rows, id, slots, 1, "flights", FlightFields)) &&
               Overlay(db.lineups.rows, r.db.lineups.rows, ChildPlan(r.db.slots.rows, id, slots, 1, "lineup", LineupFields)))
  {
    if payload.JObj? && !env.rejects(ScheduleStmt, Columns(payload, ScheduleFields)) {
      var cols := Columns(payload, ScheduleFields);
      var (schedules, id) := db.schedules.Upsert(rawId, cols);
      OverlayUpsert(db.schedules, rawId, cols);
      var slots := ListAt(payload, "slots");
      if slots.Some? {
        SlotsRunWrites(db.(schedules := schedules), id, slots.value, 1, env);
      }
    }
  }

  /**
   * A payload without `slots` (absent, `null` or empty) writes only its
   * schedule row, and goes through exactly when that statement does.
   */
  lemma ProcessWithoutSlots(db: Db, rawId: int, payload: Json, env: Env)
    requires payload.JObj? && !Truthy(Get(payload, "slots"))
    ensures var r := Process(db, rawId, payload, env);
            (r.scheduleId.Some? <==> !env.rejects(ScheduleStmt, Columns(payload, ScheduleFields))) &&
            r.db.slots == db.slots && r.db.flights == db.flights && r.db.lineups == db.lineups
  {
  }

  /**
   * Reprocessing the same raw row once it went through changes no row of any
   * table and returns the same `schedule_id`; only the serial sequences move.
   */
  lemma ProcessIdempotent(db: Db, rawId: int, payload: Json, env: Env)
    requires Process(db, rawId, payload, env).scheduleId.Some?
    ensures var r1 := Process(db, rawId, payload, env);
            var r2 := Process(r1.db, rawId, payload, env);
            r2.scheduleId == r1.scheduleId &&
            r2.db.schedules.rows == r1.db.schedules.rows && r2.db.slots.rows == r1.db.slots.rows &&
            r2.db.flights.rows == r1.db.flights.rows && r2.db.lineups.rows == r1.db.lineups.rows
  {
    var r1 := Process(db, rawId, payload, env);
    var r2 := Process(r1.db, rawId, payload, env);
    ProcessWrites(db, rawId, payload, env);
    ProcessWrites(r1.db, rawId, payload, env);
    var id := r1.scheduleId.value;
    var slots := SlotsOf(payload);
    assert r2.scheduleId == r1.scheduleId;
    OverlayFixed(r1.db.schedules.rows, r2.db.schedules.rows, map[rawId := Columns(payload, ScheduleFields)]);
    OverlayFixed(r1.db.slots.rows, r2.db.slots.rows, Plan(id, slots, 1, SlotFields));
    OverlayFixed(r1.db.flights.rows, r2.db.flights.rows, ChildPlan(r1.db.slots.rows, id, slots, 1, "flights", FlightFields));
    OverlayFixed(r1.db.lineups.rows, r2.db.lineups.rows, ChildPlan(r1.db.slots.rows, id, slots, 1, "lineup", LineupFields));
  }

  // ---------------------------------------------------------------------------
  // The loops
  // ---------------------------------------------------------------------------

  /** Lines 96-97 or 100-101. */
  method UpsertItems(t: Table<(nat, nat)>, parent: nat, xs: seq<Json>, fields: seq<string>, stmt: Stmt, env: Env)
    returns (t': Table<(nat, nat)>, raised: bool)
    ensures (t', raised) == ItemsRun(t, parent, xs, 1, fields, stmt, env)
  {
    t' := t;
    var j := 0;
    assert xs[0..] == xs;
    while j < |xs|
      invariant j <= |xs| && ItemsRun(t', parent, xs[j..], j + 1, fields, stmt, env) == ItemsRun(t, parent, xs, 1, fields, stmt, env)
    {
      assert xs[j..][1..] == xs[j + 1..];
      if !xs[j].JObj? {
        return t', true;
      }
      var cols := Columns(xs[j], fields);
      if env.rejects(stmt, cols) {
        return t', true;
      }
      var (t1, _) := t'.Upsert((parent, j + 1), cols);
      t' := t1;
      j := j + 1;
    }
    assert xs[j..] == [];
    raised := false;
  }

  /** Lines 93-101: one slot. */
  method ProcessSlot(db: Db, sched: nat, i: nat, s: Json, env: Env) returns (db': Db, raised: bool)
    ensures (db', raised) == SlotStep(db, sched, i, s, env)
  {
    if !s.JObj? {
      return db, true;
    }
    var cols := Columns(s, SlotFields);
    if env.rejects(SlotStmt, cols) {
      return db, true;
    }
    var (slots, slotId) := db.slots.Upsert((sched, i), cols);
    db' := db.(slots := slots);
    var fs := ListAt(s, "flights");
    if fs.None? {
      return db', true;
    }
    var flights;
    flights, raised := UpsertItems(db'.flights, slotId, fs.value, FlightFields, FlightStmt, env);
    db' := db'.(flights := flights);
    if raised {
      return;
    }
    var ls := ListAt(s, "lineup");
    if ls.None? {
      return db', true;
    }
    var lineups;
    lineups, raised := UpsertItems(db'.lineups, slotId, ls.value, LineupFields, LineupStmt, env);
    db' := db'.(lineups := lineups);
  }

  /** Lines 92-101: `for i, s in enumerate(slots, start=1)`. */
  method SlotLoop(db: Db, sched: nat, ss: seq<Json>, env: Env) returns (db': Db, raised: bool)
    ensures (db', raised) == SlotsRun(db, sched, ss, 1, env)
  {
    db' := db;
    var i := 0;
    assert ss[0..] == ss;
    while i < |ss|
      invariant i <= |ss| && SlotsRun(db', sched, ss[i..], i + 1, env) == SlotsRun(db, sched, ss, 1, env)
    {
      assert ss[i..][1..] == ss[i + 1..];
      db', raised := ProcessSlot(db', sched, i + 1, ss[i], env);
      if raised {
        return;
      }
      i := i + 1;
    }
    assert ss[i..] == [];
    raised := false;
  }

  /** `process_raw_row(cur, raw_row)`. */
  method ProcessRawRow(db: Db, rawId: int, payload: Json, env: Env) returns (db': Db, scheduleId: Option<nat>)
    ensures Processed(db', scheduleId) == Process(db, rawId, payload, env)
  {
    if !payload.JObj? {
      return db, None;
    }
    var cols := Columns(payload, ScheduleFields);
    if env.rejects(ScheduleStmt, cols) {
      return db, None;
    }
    var (schedules, id) := db.schedules.Upsert(rawId, cols);
    db' := db.(schedules := schedules);
    var slots := ListAt(payload, "slots");
    if slots.None? {
      return db', None;
    }
    var raised;
    db', raised := SlotLoop(db', id, slots.value, env);
    if raised {
      return db', None;
    }
    scheduleId := Some(id);
  }
}
