/**
 * `scripts/silver/transform_facts.py`: scoreboard athletes become
 * `fact_entry` rows and their stage/string times `fact_entry_strings` rows;
 * schedule lineups become `fact_schedule` rows.
 *
 * The tables are values in a `FactDb`. Parsing and the database's own
 * verdicts are oracles in an `Env`: `float()` of a string, `json.loads`,
 * the `strptime` fallback of `to_date_key`, the `::date` cast of
 * `ensure_date_dimension`, and whether an INSERT raises.
 */
module TransformFacts {
  import opened Wrappers
  import opened Json
  import opened PyText
  import opened TransformUtils

  // ---------------------------------------------------------------------------
  // Column lists
  // ---------------------------------------------------------------------------

  /** A value bound to an INSERT placeholder: integers, thousandths, booleans and payload values. */
  datatype Cell = CInt(i: int) | CNum(milli: int) | CBool(b: bool) | CJson(j: Json)

  /** One entry of a `fact_data` dict; a None value is Python's `None`. */
  datatype Column = Column(name: string, value: Option<Cell>)

  datatype Assigned = Assigned(name: string, cell: Cell)

  /**
   * `fields = [k for k, v in d.items() if v is not None]` with the values
   * beside them: the columns the INSERT names, in dict order.
   */
  function Present(cols: seq<Column>): (r: seq<Assigned>)
    ensures |r| <= |cols|
  {
    if cols == [] then []
    else
      var last := cols[|cols| - 1];
      Present(cols[..|cols| - 1]) + (if last.value.Some? then [Assigned(last.name, last.value.value)] else [])
  }

  /** A column is named exactly when the dict holds it with a value other than None. */
  lemma {:induction false} PresentMembers(cols: seq<Column>, a: Assigned)
    ensures a in Present(cols) <==> Column(a.name, Some(a.cell)) in cols
  {
    if cols != [] {
      var init := cols[..|cols| - 1];
      PresentMembers(init, a);
      assert cols == init + [cols[|cols| - 1]];
    }
  }

  /** The filter keeps dict order: it distributes over concatenation. */
  lemma {:induction false} PresentAppend(a: seq<Column>, b: seq<Column>)
    ensures Present(a + b) == Present(a) + Present(b)
  {
    if b == [] {
      assert a + b == a;
    } else {
      var init := b[..|b| - 1];
      PresentAppend(a, init);
      assert (a + b)[..|a + b| - 1] == a + init;
    }
  }

  function IntCell(o: Option<int>): Option<Cell>
  {
    if o.Some? then Some(CInt(o.value)) else None
  }

  function NumCell(o: Option<int>): Option<Cell>
  {
    if o.Some? then Some(CNum(o.value)) else None
  }

  /** A payload value taken as it is: None only for JSON null. */
  function JsonCell(v: Json): Option<Cell>
  {
    if v == JNull then None else Some(CJson(v))
  }

  // ---------------------------------------------------------------------------
  // The database and the oracles
  // ---------------------------------------------------------------------------

  datatype Dims = Dims(competition: Dim, team: Dim, discipline: Dim, athlete: Dim, slot: Dim)

  /** `fact_entry`: rows under their `entry_id`, drawn from a serial that starts at 1. */
  datatype EntryTable = EntryTable(rows: map<nat, seq<Assigned>>, next: nat)
  {
    predicate Valid()
    {
      next >= 1 && forall id :: id in rows ==> 1 <= id < next
    }
  }

  /** A (stage, string) position of the score card. */
  datatype Pos = Pos(stage: nat, str: nat)

  /** A `fact_entry_strings` row. */
  datatype StringFact = StringFact(entryId: nat, stage: nat, str: nat, time: Option<int>, pen: Option<int>, total: Option<int>)

  datatype FactDb = FactDb(dims: Dims, dates: map<int, DateRow>, times: map<int, TimeRow>,
                           entries: EntryTable, strings: seq<StringFact>, schedule: seq<seq<Assigned>>)

  datatype Env = Env(parseFloat: string -> Option<int>, parseJson: string -> Option<Json>,
                     parseIso: string -> Option<int>, isDate: string -> bool, timeFails: int -> bool,
                     entryFails: seq<Assigned> -> bool, stringFails: (nat, Pos) -> bool,
                     scheduleFails: seq<Assigned> -> bool)

  /** Every string row belongs to a stored entry. */
  predicate Owned(db: FactDb)
  {
    db.entries.Valid() && forall i :: 0 <= i < |db.strings| ==> db.strings[i].entryId in db.entries.rows
  }

  /** A value that is either computed or raises. */
  datatype Eval<T> = Value(v: T) | Raises

  // ---------------------------------------------------------------------------
  // transform_single_entry
  // ---------------------------------------------------------------------------

  /** `get_dimension_key(conn, table, field, safe_int(v))`: a NULL key finds nothing. */
  function KeyOf(t: Dim, field: string, v: Option<int>): Option<int>
  {
    var k := GetDimensionKey(t, field, if v.Some? then JInt(v.value) else JNull);
    if k.Some? then Some(k.value) else None
  }

  /**
   * `to_date_key(v)` for a payload value: None for a falsy value; the key of
   * a string; `'T' in v` raises TypeError (not caught there) for a truthy
   * number or boolean; a list or dict has no `replace`, which is caught.
   */
  function DateArg(v: Json, parseIso: string -> Option<int>): Eval<Option<int>>
  {
    if !Truthy(v) then Value(None)
    else match v
      case JStr(s) => Value(DateKeyOf(s, parseIso))
      case JInt(_) => Raises
      case JBool(_) => Raises
      case _ => Value(None)
  }

  /** `to_time_key(v)`: only a string has `upper`; the AttributeError of any other truthy value is caught. */
  function TimeArg(v: Json): Option<int>
  {
    if Truthy(v) && v.JStr? then
      var k := TimeKeyOf(v.s);
      if k.Some? then Some(k.value) else None
    else None
  }

  /** `to_date_key(v.split(' ')[0] if v else None)`: a truthy non-string has no `split` and raises. */
  function RegDateArg(v: Json, parseIso: string -> Option<int>): Eval<Option<int>>
  {
    if !Truthy(v) then Value(None)
    else if v.JStr? then Value(ToDateKey(Some(BeforeChar(v.s, ' ')), parseIso))
    else Raises
  }

  /** The dimension a key column looks up. */
  datatype DimName = CompetitionDim | TeamDim | DisciplineDim | AthleteDim | SlotDim

  /**
   * Where a `fact_data` value comes from: a dimension key of a payload id, a
   * `safe_int`, `safe_float` or `safe_bool` of a payload value (the flag read
   * with `.get(key, missing)`), a payload value as it is, or a value computed
   * before the dict is built.
   */
  datatype Source =
    | KeyCol(dim: DimName, field: string, key: string)
    | IntCol(key: string)
    | NumCol(key: string)
    | FlagCol(key: string, missing: Json)
    | RawCol(key: string)
    | Given(value: Option<Cell>)

  datatype Spec = Spec(name: string, src: Source)

  function DimOf(dims: Dims, d: DimName): Dim
  {
    match d
    case CompetitionDim => dims.competition
    case TeamDim => dims.team
    case DisciplineDim => dims.discipline
    case AthleteDim => dims.athlete
    case SlotDim => dims.slot
  }

  function ValueOf(src: Source, a: Json, dims: Dims, parseFloat: string -> Option<int>): Option<Cell>
    requires a.JObj?
  {
    match src
    case KeyCol(d, field, key) => IntCell(KeyOf(DimOf(dims, d), field, SafeInt(Get(a, key))))
    case IntCol(key) => IntCell(SafeInt(Get(a, key)))
    case NumCol(key) => NumCell(SafeFloat(Get(a, key), parseFloat))
    case FlagCol(key, missing) => Some(CBool(SafeBool(GetOr(a, key, missing))))
    case RawCol(key) => JsonCell(Get(a, key))
    case Given(v) => v
  }

  /** The dict built from a column table: one column per entry, in table order. */
  function Evaluate(specs: seq<Spec>, a: Json, dims: Dims, parseFloat: string -> Option<int>): (cols: seq<Column>)
    requires a.JObj?
    ensures |cols| == |specs|
    ensures forall i {:trigger cols[i]} :: 0 <= i < |specs| ==> cols[i] == Column(specs[i].name, ValueOf(specs[i].src, a, dims, parseFloat))
  {
    if specs == [] then []
    else [Column(specs[0].name, ValueOf(specs[0].src, a, dims, parseFloat))] + Evaluate(specs[1..], a, dims, parseFloat)
  }

  /** The columns of `fact_entry` in the source's key order. */
  function EntrySpecs(dateKey: Option<int>, timeKey: Option<int>, regKey: Option<int>): seq<Spec>
  {
    [ Spec("competition_key", KeyCol(CompetitionDim, "competition_id_nat", "comp_id")),
      Spec("team_key", KeyCol(TeamDim, "team_id_nat", "ent_id")),
      Spec("discipline_key", KeyCol(DisciplineDim, "discipline_id_nat", "disc_id")),
      Spec("athlete_key", KeyCol(AthleteDim, "ath_id_nat", "ath_id")),
      Spec("slot_key", KeyCol(SlotDim, "slot_rid_nat", "slot_id")),
      Spec("station", IntCol("station")),
      Spec("number", IntCol("number")),
      Spec("lid", IntCol("lid")),
      Spec("date_key", Given(IntCell(dateKey))),
      Spec("time_key", Given(IntCell(timeKey))),
      Spec("location", RawCol("location")),
      Spec("flight", RawCol("flight")),
      Spec("manual_scoring", FlagCol("manual_scoring", JNull)),
      Spec("is_valid", FlagCol("is_valid", JBool(true))),
      Spec("eligible", FlagCol("eligible", JBool(true))),
      Spec("dq_tag", FlagCol("dq_tag", JNull)),
      Spec("dnf_tag", FlagCol("dnf_tag", JNull)),
      Spec("proc_pen", NumCol("proc_pen")),
      Spec("spp_final", NumCol("spp_final")),
      Spec("reg_date_key", Given(IntCell(regKey))),
      Spec("reg_who", RawCol("reg_who")) ]
  }

  /** The `fact_data` dict of one athlete. */
  function EntryColumns(a: Json, dims: Dims, dateKey: Option<int>, timeKey: Option<int>, regKey: Option<int>,
                        parseFloat: string -> Option<int>): (cols: seq<Column>)
    requires a.JObj?
    ensures |cols| == 21
  {
    Evaluate(EntrySpecs(dateKey, timeKey, regKey), a, dims, parseFloat)
  }

  /** `if key: ensure_…(conn, key)`: a zero or missing key ensures nothing. */
  function EnsureDateIf(dates: map<int, DateRow>, key: Option<int>, isDate: string -> bool): map<int, DateRow>
  {
    if key.Some? && key.value != 0 then EnsureDate(dates, key.value, isDate) else dates
  }

  function EnsureTimeIf(times: map<int, TimeRow>, key: Option<int>, timeFails: int -> bool): map<int, TimeRow>
  {
    if key.Some? && key.value != 0 then EnsureTime(times, key.value, timeFails(key.value)) else times
  }

  datatype Created = Created(id: Option<nat>, db: FactDb)

  /**
   * `transform_single_entry(conn, athlete)`: the keys, then the date and time
   * dimensions, then `INSERT INTO fact_entry (<present columns>) … RETURNING
   * entry_id`. A non-dict athlete, a raising date or registration date, or a
   * failing insert returns None.
   */
  function SingleEntry(db: FactDb, a: Json, env: Env): (r: Created)
    requires db.entries.Valid()
    ensures r.db.entries.Valid() && r.db.dims == db.dims && r.db.strings == db.strings && r.db.schedule == db.schedule
    ensures r.id.None? ==> r.db.entries == db.entries
    ensures r.id.Some? ==> r.id.value == db.entries.next && r.id.value !in db.entries.rows &&
                           r.db.entries.rows.Keys == db.entries.rows.Keys + {r.id.value} &&
                           forall id :: id in db.entries.rows ==> r.db.entries.rows[id] == db.entries.rows[id]
  {
    if !a.JObj? then Created(None, db)
    else
      match (DateArg(Get(a, "date"), env.parseIso), RegDateArg(GetOr(a, "reg_date", JStr("")), env.parseIso))
      case (Value(dateKey), Value(regKey)) =>
        var timeKey := TimeArg(Get(a, "time"));
        var dates := EnsureDateIf(EnsureDateIf(db.dates, dateKey, env.isDate), regKey, env.isDate);
        var times := EnsureTimeIf(db.times, timeKey, env.timeFails);
        var fields := Present(EntryColumns(a, db.dims, dateKey, timeKey, regKey, env.parseFloat));
        var db1 := db.(dates := dates, times := times);
        if env.entryFails(fields) then Created(None, db1)
        else
          var id := db.entries.next;
          Created(Some(id), db1.(entries := EntryTable(db.entries.rows[id := fields], id + 1)))
      case _ => Created(None, db)
  }

  /** The names an INSERT lists, in order. */
  function Names(fields: seq<Assigned>): (names: seq<string>)
    ensures |names| == |fields| && forall i :: 0 <= i < |fields| ==> names[i] == fields[i].name
  {
    if fields == [] then [] else [fields[0].name] + Names(fields[1..])
  }

  /**
   * `safe_bool` never returns None, so a flag column (manual_scoring,
   * is_valid, eligible, dq_tag, dnf_tag) is named by every INSERT.
   */
  lemma FlagsNamed(specs: seq<Spec>, a: Json, dims: Dims, parseFloat: string -> Option<int>)
    requires a.JObj?
    ensures forall i :: 0 <= i < |specs| && specs[i].src.FlagCol? ==>
              specs[i].name in Names(Present(Evaluate(specs, a, dims, parseFloat)))
  {
    var fields := Present(Evaluate(specs, a, dims, parseFloat));
    forall i | 0 <= i < |specs| && specs[i].src.FlagCol?
      ensures specs[i].name in Names(fields)
    {
      ValuePresent(specs, a, dims, parseFloat, i);
      var c := Assigned(specs[i].name, ValueOf(specs[i].src, a, dims, parseFloat).value);
      var k :| 0 <= k < |fields| && fields[k] == c;
      assert Names(fields)[k] == specs[i].name;
    }
  }

  /** A column whose value is not None is named by the INSERT, with that value. */
  lemma ValuePresent(specs: seq<Spec>, a: Json, dims: Dims, parseFloat: string -> Option<int>, i: nat)
    requires a.JObj? && i < |specs| && ValueOf(specs[i].src, a, dims, parseFloat).Some?
    ensures Assigned(specs[i].name, ValueOf(specs[i].src, a, dims, parseFloat).value) in Present(Evaluate(specs, a, dims, parseFloat))
  {
    var cols := Evaluate(specs, a, dims, parseFloat);
    PresentMembers(cols, Assigned(specs[i].name, ValueOf(specs[i].src, a, dims, parseFloat).value));
    assert cols[i] in cols;
  }

  /** A name that only a None column carries is never named by the INSERT. */
  lemma NoneAbsent(specs: seq<Spec>, a: Json, dims: Dims, parseFloat: string -> Option<int>, name: string)
    requires a.JObj?
    requires forall i :: 0 <= i < |specs| && specs[i].name == name ==> specs[i].src == Given(None)
    ensures forall c :: c in Present(Evaluate(specs, a, dims, parseFloat)) ==> c.name != name
  {
    var cols := Evaluate(specs, a, dims, parseFloat);
    forall c | c in Present(cols)
      ensures c.name != name
    {
      PresentMembers(cols, c);
      var k :| 0 <= k < |cols| && cols[k] == Column(c.name, Some(c.cell));
    }
  }

  /** An entry is created exactly for a dict whose dates evaluate and whose insert succeeds. */
  lemma SingleEntryCreated(db: FactDb, a: Json, env: Env)
    requires db.entries.Valid()
    ensures SingleEntry(db, a, env).id.Some? <==>
              a.JObj? && DateArg(Get(a, "date"), env.parseIso).Value? &&
              RegDateArg(GetOr(a, "reg_date", JStr("")), env.parseIso).Value? &&
              !env.entryFails(Present(EntryColumns(a, db.dims, DateArg(Get(a, "date"), env.parseIso).v,
                                                   TimeArg(Get(a, "time")),
                                                   RegDateArg(GetOr(a, "reg_date", JStr("")), env.parseIso).v,
                                                   env.parseFloat)))
  {
  }

  /** The registration date key is that of the text before the first space. */
  lemma RegDateBeforeSpace(d: string, rest: string, parseIso: string -> Option<int>)
    requires d != [] && !HasChar(d, ' ')
    ensures RegDateArg(JStr(d + " " + rest), parseIso) == Value(DateKeyOf(d, parseIso))
  {
    var s := d + " " + rest;
    var b := BeforeChar(s, ' ');
    assert s[|d|] == ' ' && forall i :: 0 <= i < |d| ==> s[i] == d[i];
    assert b == d;
  }

  // ---------------------------------------------------------------------------
  // transform_entry_strings
  // ---------------------------------------------------------------------------

  /** The position the nested loops reach at step `k`: stages 1-4, strings 1-5, stage-major. */
  function PosAt(k: nat): Pos
  {
    Pos(k / 5 + 1, k % 5 + 1)
  }

  function PosOf(f: StringFact): Pos
  {
    Pos(f.stage, f.str)
  }

  /** Lexicographic (stage, string) order. */
  predicate Before(p: Pos, q: Pos)
  {
    p.stage < q.stage || (p.stage == q.stage && p.str < q.str)
  }

  /** The position the inner loop reaches at `stage`, `n`. */
  lemma PositionAt(stage: nat, n: nat)
    requires 1 <= stage <= 4 && 1 <= n <= 5
    ensures PosAt(5 * (stage - 1) + n - 1) == Pos(stage, n)
  {
  }

  /** Later steps visit later positions. */
  lemma PosAtAscending(i: nat, j: nat)
    requires i < j
    ensures Before(PosAt(i), PosAt(j))
  {
  }

  /** The 20 steps visit every position of stages 1-4 and strings 1-5, each once, in ascending order. */
  lemma PositionsOrder()
    ensures forall i, j :: 0 <= i < j < 20 ==> Before(PosAt(i), PosAt(j))
    ensures forall k :: 0 <= k < 20 ==> 1 <= PosAt(k).stage <= 4 && 1 <= PosAt(k).str <= 5
    ensures forall p: Pos :: 1 <= p.stage <= 4 && 1 <= p.str <= 5 ==> PosAt(5 * (p.stage - 1) + p.str - 1) == p
  {
    forall i, j | 0 <= i < j < 20
      ensures Before(PosAt(i), PosAt(j))
    {
      PosAtAscending(i, j);
    }
    forall k | 0 <= k < 20
      ensures 1 <= PosAt(k).stage <= 4 && 1 <= PosAt(k).str <= 5
    {
      PosAtRange(k);
    }
    forall p: Pos | 1 <= p.stage <= 4 && 1 <= p.str <= 5
      ensures PosAt(5 * (p.stage - 1) + p.str - 1) == p
    {
      PositionAt(p.stage, p.str);
    }
  }

  lemma PosAtRange(k: nat)
    requires k < 20
    ensures 1 <= PosAt(k).stage <= 4 && 1 <= PosAt(k).str <= 5
  {
  }

  /** `f'spp{stage}_{string}'`, `f'spp{stage}_pen{string}'`, `f'spp{stage}_tot{string}'`. */
  function TimeField(p: Pos): string
  {
    "spp" + NatToString(p.stage) + "_" + NatToString(p.str)
  }

  function PenField(p: Pos): string
  {
    "spp" + NatToString(p.stage) + "_pen" + NatToString(p.str)
  }

  function TotField(p: Pos): string
  {
    "spp" + NatToString(p.stage) + "_tot" + NatToString(p.str)
  }

  /** The three names of a position are distinct, and two positions of the card never share a name. */
  lemma FieldNamesDistinct(p: Pos, q: Pos)
    requires 1 <= p.stage <= 9 && 1 <= p.str <= 9 && 1 <= q.stage <= 9 && 1 <= q.str <= 9
    ensures TimeField(p) != PenField(q) && TimeField(p) != TotField(q) && PenField(p) != TotField(q)
    ensures p != q ==> TimeField(p) != TimeField(q) && PenField(p) != PenField(q) && TotField(p) != TotField(q)
  {
    assert TimeField(p) == ['s', 'p', 'p', DigitChar(p.stage), '_', DigitChar(p.str)];
    assert TimeField(q) == ['s', 'p', 'p', DigitChar(q.stage), '_', DigitChar(q.str)];
    assert PenField(p) == ['s', 'p', 'p', DigitChar(p.stage), '_', 'p', 'e', 'n', DigitChar(p.str)];
    assert PenField(q) == ['s', 'p', 'p', DigitChar(q.stage), '_', 'p', 'e', 'n', DigitChar(q.str)];
    assert TotField(p) == ['s', 'p', 'p', DigitChar(p.stage), '_', 't', 'o', 't', DigitChar(p.str)];
    assert TotField(q) == ['s', 'p', 'p', DigitChar(q.stage), '_', 't', 'o', 't', DigitChar(q.str)];
  }

  /** The three values the loop body reads at a position (None where `safe_float` gives None). */
  datatype Values = Values(time: Option<int>, pen: Option<int>, total: Option<int>)

  /** `safe_float(athlete.get(…))` of the three fields of `p`; a non-dict has none. */
  function CardValues(a: Json, p: Pos, parseFloat: string -> Option<int>): Values
  {
    if a.JObj? then
      Values(SafeFloat(Get(a, TimeField(p)), parseFloat), SafeFloat(Get(a, PenField(p)), parseFloat),
             SafeFloat(Get(a, TotField(p)), parseFloat))
    else Values(None, None, None)
  }

  /** The athlete's score card, position by position. */
  function Card(a: Json, parseFloat: string -> Option<int>): Pos -> Values
  {
    p => CardValues(a, p, parseFloat)
  }

  /** The row the loop body inserts at `p`. */
  function RowAt(entryId: nat, vals: Pos -> Values, p: Pos): (f: StringFact)
    ensures PosOf(f) == p && f.entryId == entryId
  {
    StringFact(entryId, p.stage, p.str, vals(p).time, vals(p).pen, vals(p).total)
  }

  /** `time_value is not None or penalty_value is not None or total_value is not None`. */
  predicate Recorded(f: StringFact)
  {
    f.time.Some? || f.pen.Some? || f.total.Some?
  }

  /** The rows written before an exception ended the loops, and whether one did. */
  datatype Run = Run(written: seq<StringFact>, raised: bool)

  /**
   * One pass of the loop body at `p`: `get` on a non-dict raises; a row is
   * inserted when one of the three values parses, and a failing INSERT
   * (`fails`) raises.
   */
  function Step(prev: Run, entryId: nat, isDict: bool, vals: Pos -> Values, fails: Pos -> bool, p: Pos): Run
  {
    if prev.raised then prev
    else if !isDict then Run(prev.written, true)
    else if !Recorded(RowAt(entryId, vals, p)) then prev
    else if fails(p) then Run(prev.written, true)
    else Run(prev.written + [RowAt(entryId, vals, p)], false)
  }

  /** The first `k` passes of the nested loops. */
  function StringsUpTo(entryId: nat, isDict: bool, vals: Pos -> Values, fails: Pos -> bool, k: nat): Run
  {
    if k == 0 then Run([], false)
    else Step(StringsUpTo(entryId, isDict, vals, fails, k - 1), entryId, isDict, vals, fails, PosAt(k - 1))
  }

  /** Whether the INSERT of the row at a position raises. */
  function InsertFails(env: Env, entryId: nat): Pos -> bool
  {
    p => env.stringFails(entryId, p)
  }

  /** All 20 passes of `transform_entry_strings` for one athlete. */
  function EntryStrings(entryId: nat, a: Json, env: Env): Run
  {
    StringsUpTo(entryId, a.JObj?, Card(a, env.parseFloat), InsertFails(env, entryId), 20)
  }

  /** Once an insert raised, the rest of the loops do not run. */
  lemma {:induction false} StringsRaised(entryId: nat, isDict: bool, vals: Pos -> Values, fails: Pos -> bool, k: nat, m: nat)
    requires k <= m && StringsUpTo(entryId, isDict, vals, fails, k).raised
    ensures StringsUpTo(entryId, isDict, vals, fails, m) == StringsUpTo(entryId, isDict, vals, fails, k)
    decreases m
  {
    if k < m {
      StringsRaised(entryId, isDict, vals, fails, k, m - 1);
    }
  }

  /** Every row written carries the entry id and a value, and is the row of a position visited so far. */
  lemma {:induction false} WrittenRows(entryId: nat, isDict: bool, vals: Pos -> Values, fails: Pos -> bool, k: nat)
    ensures var w := StringsUpTo(entryId, isDict, vals, fails, k).written;
            |w| <= k &&
            forall i :: 0 <= i < |w| ==>
              Recorded(w[i]) && w[i].entryId == entryId && Before(PosOf(w[i]), PosAt(k)) &&
              w[i] == RowAt(entryId, vals, PosOf(w[i]))
  {
    if k > 0 {
      WrittenRows(entryId, isDict, vals, fails, k - 1);
      PosAtAscending(k - 1, k);
    }
  }

  /** The rows are written in ascending (stage, string) order. */
  lemma {:induction false} WrittenOrder(entryId: nat, isDict: bool, vals: Pos -> Values, fails: Pos -> bool, k: nat)
    ensures var w := StringsUpTo(entryId, isDict, vals, fails, k).written;
            forall i, j :: 0 <= i < j < |w| ==> Before(PosOf(w[i]), PosOf(w[j]))
  {
    if k > 0 {
      WrittenOrder(entryId, isDict, vals, fails, k - 1);
      WrittenRows(entryId, isDict, vals, fails, k - 1);
    }
  }

  /** Without an exception, the row of a visited position is written exactly when one of its values parses. */
  lemma {:induction false} WrittenComplete(entryId: nat, isDict: bool, vals: Pos -> Values, fails: Pos -> bool, k: nat)
    ensures var run := StringsUpTo(entryId, isDict, vals, fails, k);
            !run.raised ==> forall j :: 0 <= j < k ==>
              (RowAt(entryId, vals, PosAt(j)) in run.written <==> Recorded(RowAt(entryId, vals, PosAt(j))))
  {
    if k > 0 {
      WrittenComplete(entryId, isDict, vals, fails, k - 1);
      WrittenRows(entryId, isDict, vals, fails, k - 1);
      var prev := StringsUpTo(entryId, isDict, vals, fails, k - 1);
      var run := StringsUpTo(entryId, isDict, vals, fails, k);
      var f := RowAt(entryId, vals, PosAt(k - 1));
      if !run.raised {
        forall j | 0 <= j < k
          ensures RowAt(entryId, vals, PosAt(j)) in run.written <==> Recorded(RowAt(entryId, vals, PosAt(j)))
        {
          var g := RowAt(entryId, vals, PosAt(j));
          if j < k - 1 {
            PosAtAscending(j, k - 1);
            assert g != f;
          } else {
            assert g !in prev.written;
          }
        }
      }
    }
  }

  /**
   * `transform_entry_strings(conn, entry_id, athlete)`: the nested loops
   * insert one row per position with a value; the count of inserted rows
   * is returned, or 0 when an exception ended the loops (the rows already
   * inserted stay).
   */
  method TransformEntryStrings(strings: seq<StringFact>, entryId: nat, a: Json, env: Env)
    returns (strings': seq<StringFact>, count: nat)
    ensures var run := EntryStrings(entryId, a, env);
            strings' == strings + run.written && count == (if run.raised then 0 else |run.written|)
  {
    var written, raised := StringLoops(entryId, a.JObj?, Card(a, env.parseFloat), InsertFails(env, entryId));
    strings', count := strings + written, if raised then 0 else |written|;
  }

  /**
   * The nested `for stage in range(1, 5)` / `for string in range(1, 6)`
   * loops over the athlete's card `vals`; `raised` when an exception ended them.
   */
  method StringLoops(entryId: nat, isDict: bool, vals: Pos -> Values, fails: Pos -> bool)
    returns (written: seq<StringFact>, raised: bool)
    ensures StringsUpTo(entryId, isDict, vals, fails, 20) == Run(written, raised)
  {
    written := [];
    ghost var done := 0;
    var stage := 1;
    while stage < 5
      invariant 1 <= stage <= 5 && done == 5 * (stage - 1)
      invariant StringsUpTo(entryId, isDict, vals, fails, done) == Run(written, false)
    {
      var n := 1;
      while n < 6
        invariant 1 <= n <= 6 && done == 5 * (stage - 1) + n - 1
        invariant StringsUpTo(entryId, isDict, vals, fails, done) == Run(written, false)
      {
        written, raised := StringPass(written, entryId, isDict, vals, fails, stage, n, done);
        done := done + 1;
        if raised {
          StringsRaised(entryId, isDict, vals, fails, done, 20);
          return;
        }
        n := n + 1;
      }
      stage := stage + 1;
    }
    raised := false;
  }

  /** The loop body at `stage`, `n`: read the three values, insert when one is present. */
  method StringPass(written: seq<StringFact>, entryId: nat, isDict: bool, vals: Pos -> Values, fails: Pos -> bool,
                    stage: nat, n: nat, ghost done: nat)
    returns (written': seq<StringFact>, raised: bool)
    requires 1 <= stage <= 4 && 1 <= n <= 5 && done == 5 * (stage - 1) + n - 1
    requires StringsUpTo(entryId, isDict, vals, fails, done) == Run(written, false)
    ensures StringsUpTo(entryId, isDict, vals, fails, done + 1) == Run(written', raised)
  {
    var p := Pos(stage, n);
    PositionAt(stage, n);
    if !isDict {
      return written, true;
    }
    var v := vals(p);
    var f := StringFact(entryId, stage, n, v.time, v.pen, v.total);
    if Recorded(f) {
      if fails(p) {
        return written, true;
      }
      return written + [f], false;
    }
    return written, false;
  }

  /** At most one row per position: a call inserts at most 20 rows, each with a value. */
  lemma StringsCount(entryId: nat, a: Json, env: Env)
    ensures var run := EntryStrings(entryId, a, env);
            |run.written| <= 20 && forall i :: 0 <= i < |run.written| ==> Recorded(run.written[i])
  {
    WrittenRows(entryId, a.JObj?, Card(a, env.parseFloat), InsertFails(env, entryId), 20);
  }

  // ---------------------------------------------------------------------------
  // transform_scoreboard_to_facts
  // ---------------------------------------------------------------------------

  /** What `for x in v` iterates over: a list's items, a string's characters, a dict's keys; None when it raises. */
  function Iterate(v: Json): Option<seq<Json>>
  {
    match v
    case JArr(xs) => Some(xs)
    case JStr(s) => Some(seq(|s|, i requires 0 <= i < |s| => JStr([s[i]])))
    case JObj(fs) => Some(seq(|fs|, i requires 0 <= i < |fs| => JStr(fs[i].key)))
    case _ => None
  }

  /** The athletes the loops reach, and whether the traversal raised after them. */
  datatype Visit = Visit(athletes: seq<Json>, raised: bool)

  /** Visiting `a`, then `b` unless `a` raised. */
  function Then(a: Visit, b: Visit): Visit
  {
    if a.raised then a else Visit(a.athletes + b.athletes, b.raised)
  }

  /** `discipline.get('athletes', [])`, iterated; a non-dict discipline raises. */
  function DisciplineAthletes(d: Json): Visit
  {
    if !d.JObj? then Visit([], true)
    else match Iterate(GetOr(d, "athletes", JArr([])))
      case None => Visit([], true)
      case Some(xs) => Visit(xs, false)
  }

  function DisciplinesAthletes(ds: seq<Json>): Visit
  {
    if ds == [] then Visit([], false) else Then(DisciplineAthletes(ds[0]), DisciplinesAthletes(ds[1..]))
  }

  function TeamAthletes(t: Json): Visit
  {
    if !t.JObj? then Visit([], true)
    else match Iterate(GetOr(t, "disciplines", JArr([])))
      case None => Visit([], true)
      case Some(ds) => DisciplinesAthletes(ds)
  }

  function TeamsAthletes(ts: seq<Json>): Visit
  {
    if ts == [] then Visit([], false) else Then(TeamAthletes(ts[0]), TeamsAthletes(ts[1..]))
  }

  /**
   * The athletes of one `raw_scoreboard` payload, in loop order: a string
   * payload is parsed first; `data.get('teams', [])` needs a dict.
   */
  function PayloadAthletes(payload: Json, parseJson: string -> Option<Json>): Visit
  {
    var data := if payload.JStr? then parseJson(payload.s) else Some(payload);
    if data.None? || !data.value.JObj? then Visit([], true)
    else match Iterate(GetOr(data.value, "teams", JArr([])))
      case None => Visit([], true)
      case Some(ts) => TeamsAthletes(ts)
  }

  /** The athletes of a team with well-formed disciplines are those lists, concatenated in order. */
  lemma {:induction false} DisciplinesConcat(ds: seq<Json>, lists: seq<seq<Json>>)
    requires |ds| == |lists|
    requires forall i :: 0 <= i < |ds| ==> ds[i].JObj? && GetOr(ds[i], "athletes", JArr([])) == JArr(lists[i])
    ensures DisciplinesAthletes(ds) == Visit(Flatten(lists), false)
  {
    if ds != [] {
      DisciplinesConcat(ds[1..], lists[1..]);
      assert lists == [lists[0]] + lists[1..];
    }
  }

  function Flatten(lists: seq<seq<Json>>): seq<Json>
  {
    if lists == [] then [] else lists[0] + Flatten(lists[1..])
  }

  datatype Tally = Tally(db: FactDb, entries: nat, strings: nat)

  /** One athlete: an entry, and its strings when the entry got an id. */
  function AthleteStep(t: Tally, a: Json, env: Env): Tally
    requires t.db.entries.Valid()
  {
    AfterEntry(t, SingleEntry(t.db, a, env), a, env)
  }

  /** The rest of an athlete's step once `transform_single_entry` returned. */
  function AfterEntry(t: Tally, c: Created, a: Json, env: Env): Tally
  {
    if c.id.None? then t.(db := c.db)
    else
      var run := EntryStrings(c.id.value, a, env);
      Tally(c.db.(strings := c.db.strings + run.written), t.entries + 1,
            t.strings + if run.raised then 0 else |run.written|)
  }

  /** An athlete step keeps every string row owned by a stored entry. */
  lemma AthleteStepOwned(t: Tally, a: Json, env: Env)
    requires Owned(t.db)
    ensures Owned(AthleteStep(t, a, env).db)
    ensures AthleteStep(t, a, env).db.dims == t.db.dims && AthleteStep(t, a, env).db.schedule == t.db.schedule
  {
    var c := SingleEntry(t.db, a, env);
    if c.id.Some? {
      var run := EntryStrings(c.id.value, a, env);
      WrittenRows(c.id.value, a.JObj?, Card(a, env.parseFloat), InsertFails(env, c.id.value), 20);
      AppendOwned(c.db.strings, run.written, c.db.entries.rows, c.id.value);
    }
  }

  lemma AppendOwned(strings: seq<StringFact>, written: seq<StringFact>, rows: map<nat, seq<Assigned>>, id: nat)
    requires id in rows
    requires forall i :: 0 <= i < |strings| ==> strings[i].entryId in rows
    requires forall i :: 0 <= i < |written| ==> written[i].entryId == id
    ensures forall i :: 0 <= i < |strings + written| ==> (strings + written)[i].entryId in rows
  {
    forall i | 0 <= i < |strings + written|
      ensures (strings + written)[i].entryId in rows
    {
      if i >= |strings| {
        assert (strings + written)[i] == written[i - |strings|];
      }
    }
  }

  function Athletes(t: Tally, xs: seq<Json>, env: Env): (r: Tally)
    requires t.db.entries.Valid()
    ensures r.db.entries.Valid()
  {
    if xs == [] then t
    else
      var prev := Athletes(t, xs[..|xs| - 1], env);
      AthleteStep(prev, xs[|xs| - 1], env)
  }

  lemma AthletesSnoc(t: Tally, xs: seq<Json>, k: nat, env: Env)
    requires t.db.entries.Valid() && k < |xs|
    ensures Athletes(t, xs[..k + 1], env) == AthleteStep(Athletes(t, xs[..k], env), xs[k], env)
  {
    assert xs[..k + 1][..k] == xs[..k];
  }

  /** Every payload: its athletes in order; an exception ends that payload only. */
  function Payloads(t: Tally, ps: seq<Json>, env: Env): (r: Tally)
    requires t.db.entries.Valid()
    ensures r.db.entries.Valid()
  {
    if ps == [] then t
    else
      var prev := Payloads(t, ps[..|ps| - 1], env);
      Athletes(prev, PayloadAthletes(ps[|ps| - 1], env.parseJson).athletes, env)
  }

  lemma {:induction false} AthletesOwned(t: Tally, xs: seq<Json>, env: Env)
    requires Owned(t.db)
    ensures Owned(Athletes(t, xs, env).db)
    ensures Athletes(t, xs, env).db.dims == t.db.dims && Athletes(t, xs, env).db.schedule == t.db.schedule
  {
    if xs != [] {
      AthletesOwned(t, xs[..|xs| - 1], env);
      AthleteStepOwned(Athletes(t, xs[..|xs| - 1], env), xs[|xs| - 1], env);
    }
  }

  /** String rows are created only for entries that got an id: a run keeps every string row owned. */
  lemma {:induction false} PayloadsOwned(t: Tally, ps: seq<Json>, env: Env)
    requires Owned(t.db)
    ensures Owned(Payloads(t, ps, env).db)
    ensures Payloads(t, ps, env).db.dims == t.db.dims
  {
    if ps != [] {
      PayloadsOwned(t, ps[..|ps| - 1], env);
      AthletesOwned(Payloads(t, ps[..|ps| - 1], env), PayloadAthletes(ps[|ps| - 1], env.parseJson).athletes, env);
    }
  }

  /** The strings counted are those inserted: without insert failures the count is the number of new rows. */
  lemma {:induction false} AthletesCount(t: Tally, xs: seq<Json>, env: Env)
    requires t.db.entries.Valid()
    requires forall id, p :: !env.stringFails(id, p)
    ensures var r := Athletes(t, xs, env);
            |r.db.strings| == |t.db.strings| + (r.strings - t.strings) && t.entries <= r.entries <= t.entries + |xs|
  {
    if xs != [] {
      AthletesCount(t, xs[..|xs| - 1], env);
      var prev := Athletes(t, xs[..|xs| - 1], env);
      var a := xs[|xs| - 1];
      var c := SingleEntry(prev.db, a, env);
      if c.id.Some? {
        assert a.JObj?;
        NoFailureNoRaise(c.id.value, Card(a, env.parseFloat), InsertFails(env, c.id.value), 20);
      }
    }
  }

  /** Without a failing insert the loops over a dict never raise. */
  lemma {:induction false} NoFailureNoRaise(entryId: nat, vals: Pos -> Values, fails: Pos -> bool, k: nat)
    requires forall p :: !fails(p)
    ensures !StringsUpTo(entryId, true, vals, fails, k).raised
  {
    if k > 0 {
      NoFailureNoRaise(entryId, vals, fails, k - 1);
    }
  }

  /** The body of the athlete loop: the entry, then its strings when it got an id. */
  method VisitAthlete(t: Tally, a: Json, env: Env) returns (t': Tally)
    requires t.db.entries.Valid()
    ensures t' == AthleteStep(t, a, env)
  {
    var c := SingleEntry(t.db, a, env);
    t' := FinishAthlete(t, c, a, env);
  }

  /** `if entry_id: … transform_entry_strings(conn, entry_id, athlete)`, counting what was written. */
  method FinishAthlete(t: Tally, c: Created, a: Json, env: Env) returns (t': Tally)
    ensures t' == AfterEntry(t, c, a, env)
  {
    if c.id.Some? {
      var ss, n := TransformEntryStrings(c.db.strings, c.id.value, a, env);
      t' := Tally(c.db.(strings := ss), t.entries + 1, t.strings + n);
    } else {
      t' := t.(db := c.db);
    }
  }

  /**
   * `transform_scoreboard_to_facts(conn)`: every payload, every athlete of
   * it in loop order; `entry_count` and `string_count` are the logged totals.
   */
  method TransformScoreboardToFacts(db: FactDb, payloads: seq<Json>, env: Env)
    returns (db': FactDb, entryCount: nat, stringCount: nat)
    requires db.entries.Valid()
    ensures Tally(db', entryCount, stringCount) == Payloads(Tally(db, 0, 0), payloads, env)
  {
    var t := Tally(db, 0, 0);
    var i := 0;
    while i < |payloads|
      invariant i <= |payloads|
      invariant t == Payloads(Tally(db, 0, 0), payloads[..i], env)
    {
      var xs := PayloadAthletes(payloads[i], env.parseJson).athletes;
      ghost var t0 := t;
      var j := 0;
      while j < |xs|
        invariant j <= |xs| && t.db.entries.Valid()
        invariant t == Athletes(t0, xs[..j], env)
      {
        t := VisitAthlete(t, xs[j], env);
        AthletesSnoc(t0, xs, j, env);
        j := j + 1;
      }
      assert xs[..j] == xs;
      assert payloads[..i + 1][..i] == payloads[..i];
      i := i + 1;
    }
    assert payloads[..i] == payloads;
    db', entryCount, stringCount := t.db, t.entries, t.strings;
  }

  // ---------------------------------------------------------------------------
  // transform_schedule_to_facts
  // ---------------------------------------------------------------------------

  /** The columns of `fact_schedule` in the source's key order; `competition_key` is always None. */
  function ScheduleSpecs(slotKey: int): (specs: seq<Spec>)
    ensures |specs| == 9 && specs[0] == Spec("competition_key", Given(None)) &&
            specs[1] == Spec("slot_key", Given(Some(CInt(slotKey))))
    ensures forall i :: 1 <= i < |specs| ==> specs[i].name != "competition_key"
  {
    [ Spec("competition_key", Given(None)),
      Spec("slot_key", Given(Some(CInt(slotKey)))),
      Spec("lineup_id", IntCol("lid")),
      Spec("station", IntCol("station")),
      Spec("athlete_name", RawCol("name")),
      Spec("team_name", RawCol("team")),
      Spec("class_label", RawCol("class")),
      Spec("is_open", FlagCol("is_open", JNull)),
      Spec("exists_flag", FlagCol("exists", JBool(true))) ]
  }

  /** The `fact_data` dict of one lineup entry (no column of it reads a dimension or a float). */
  function ScheduleColumns(slotKey: int, e: Json, dims: Dims, parseFloat: string -> Option<int>): (cols: seq<Column>)
    requires e.JObj?
    ensures |cols| == 9
  {
    Evaluate(ScheduleSpecs(slotKey), e, dims, parseFloat)
  }

  /** The rows inserted for a payload before an exception (if any) ends it. */
  datatype Inserted = Inserted(rows: seq<seq<Assigned>>, raised: bool)

  function Join2(a: Inserted, b: Inserted): Inserted
  {
    if a.raised then a else Inserted(a.rows + b.rows, b.raised)
  }

  function LineupRows(dims: Dims, slotKey: int, es: seq<Json>, env: Env): Inserted
  {
    if es == [] then Inserted([], false)
    else if !es[0].JObj? then Inserted([], true)
    else
      var fields := Present(ScheduleColumns(slotKey, es[0], dims, env.parseFloat));
      if env.scheduleFails(fields) then Inserted([], true)
      else Join2(Inserted([fields], false), LineupRows(dims, slotKey, es[1..], env))
  }

  /** One slot: skipped without a truthy `rid` or without a `dim_slot` row for it. */
  function SlotRows(dims: Dims, s: Json, env: Env): Inserted
  {
    if !s.JObj? then Inserted([], true)
    else
      var rid := SafeInt(Get(s, "rid"));
      if rid.None? || rid.value == 0 then Inserted([], false)
      else
        var key := KeyOf(dims.slot, "slot_rid_nat", rid);
        if key.None? || key.value == 0 then Inserted([], false)
        else match Iterate(GetOr(s, "lineup", JArr([])))
          case None => Inserted([], true)
          case Some(es) => LineupRows(dims, key.value, es, env)
  }

  function SlotsRows(dims: Dims, ss: seq<Json>, env: Env): Inserted
  {
    if ss == [] then Inserted([], false) else Join2(SlotRows(dims, ss[0], env), SlotsRows(dims, ss[1..], env))
  }

  function ScheduleRows(dims: Dims, payload: Json, env: Env): Inserted
  {
    var data := if payload.JStr? then env.parseJson(payload.s) else Some(payload);
    if data.None? || !data.value.JObj? then Inserted([], true)
    else match Iterate(GetOr(data.value, "slots", JArr([])))
      case None => Inserted([], true)
      case Some(ss) => SlotsRows(dims, ss, env)
  }

  /** Every inserted schedule row names `slot_key` and never `competition_key`. */
  lemma {:induction false} LineupRowsShape(dims: Dims, slotKey: int, es: seq<Json>, env: Env)
    ensures forall r :: r in LineupRows(dims, slotKey, es, env).rows ==>
              Assigned("slot_key", CInt(slotKey)) in r && forall c :: c in r ==> c.name != "competition_key"
  {
    if es != [] && es[0].JObj? {
      LineupRowsShape(dims, slotKey, es[1..], env);
      var specs := ScheduleSpecs(slotKey);
      ValuePresent(specs, es[0], dims, env.parseFloat, 1);
      NoneAbsent(specs, es[0], dims, env.parseFloat, "competition_key");
    }
  }

  /** A slot without a truthy `rid` adds no row and does not end the payload. */
  lemma SlotWithoutRid(dims: Dims, s: Json, env: Env)
    requires s.JObj? && !Truthy(Get(s, "rid"))
    ensures SlotRows(dims, s, env) == Inserted([], false)
  {
  }

  /** `transform_schedule_to_facts(conn)`: each payload's lineup rows, in order; `schedule_count` is their number. */
  method TransformScheduleToFacts(db: FactDb, payloads: seq<Json>, env: Env) returns (db': FactDb, scheduleCount: nat)
    ensures db' == db.(schedule := db.schedule + ScheduleAll(db.dims, payloads, env))
    ensures scheduleCount == |ScheduleAll(db.dims, payloads, env)|
  {
    var inserted: seq<seq<Assigned>> := [];
    scheduleCount := 0;
    var i := 0;
    while i < |payloads|
      invariant i <= |payloads|
      invariant inserted == ScheduleAll(db.dims, payloads[..i], env) && scheduleCount == |inserted|
    {
      var rows := ScheduleRows(db.dims, payloads[i], env).rows;
      assert inserted + rows == ScheduleAll(db.dims, payloads[..i + 1], env) by {
        ScheduleAllSnoc(db.dims, payloads, i, env);
      }
      inserted := inserted + rows;
      scheduleCount := scheduleCount + |rows|;
      i := i + 1;
    }
    assert payloads[..i] == payloads;
    db' := db.(schedule := db.schedule + inserted);
  }

  lemma ScheduleAllSnoc(dims: Dims, ps: seq<Json>, i: nat, env: Env)
    requires i < |ps|
    ensures ScheduleAll(dims, ps[..i + 1], env) == ScheduleAll(dims, ps[..i], env) + ScheduleRows(dims, ps[i], env).rows
  {
    assert ps[..i + 1][..i] == ps[..i];
  }

  function ScheduleAll(dims: Dims, ps: seq<Json>, env: Env): seq<seq<Assigned>>
  {
    if ps == [] then [] else ScheduleAll(dims, ps[..|ps| - 1], env) + ScheduleRows(dims, ps[|ps| - 1], env).rows
  }
}
