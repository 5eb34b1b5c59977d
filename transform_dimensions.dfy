/**
 * `scripts/silver/transform_dimensions.py`: the dimension tables of the
 * silver layer filled from the raw competition, team, schedule and
 * scoreboard payloads.
 *
 * The tables are `Dim` values in a `Warehouse`. Each transform runs in one
 * transaction that begins where the previous one committed; an SQL error
 * inside `upsert_dimension` rolls the connection back, so the warehouse
 * returns to its state when the transform began (`start`) while the
 * transform carries on with its `*_seen` set as it was. An exception of the
 * payload loop ends that payload only, as the per-payload `except` does.
 * In `transform_competitions` a failed `::date` cast, swallowed by
 * `ensure_date_dimension`, leaves the transaction aborted (`Txn`): the next
 * upsert then rolls back to `start`, and a commit while it is still aborted
 * is a rollback too.
 * `json.loads`, the `strptime` fallback, the `::date` cast and whether a
 * statement fails are oracles in an `Env`.
 */
module TransformDimensions {
  import opened Wrappers
  import opened Json
  import opened PyText
  import opened TransformUtils
  import TransformFacts

  datatype Env = Env(parseJson: string -> Option<Json>, parseIso: string -> Option<int>, isDate: string -> bool,
                     fails: (Table, Json) -> bool)

  /** The dimensions the transforms upsert into. */
  datatype Table = CompetitionDim | RangeDim | TeamDim | SlotDim | DisciplineDim | AthleteDim

  function TableName(t: Table): string
  {
    match t
    case CompetitionDim => "dim_competition"
    case RangeDim => "dim_range"
    case TeamDim => "dim_team"
    case SlotDim => "dim_slot"
    case DisciplineDim => "dim_discipline"
    case AthleteDim => "dim_athlete"
  }

  /** The natural-key column each transform passes to `upsert_dimension`. */
  function NaturalKey(t: Table): string
  {
    match t
    case CompetitionDim => "competition_id_nat"
    case RangeDim => "range_id_nat"
    case TeamDim => "team_id_nat"
    case SlotDim => "slot_rid_nat"
    case DisciplineDim => "discipline_id_nat"
    case AthleteDim => "ath_id_nat"
  }

  datatype Warehouse = Warehouse(competition: Dim, range: Dim, team: Dim, slot: Dim, discipline: Dim, athlete: Dim,
                                 dates: map<int, DateRow>)
  {
    predicate Valid()
    {
      competition.Valid() && range.Valid() && team.Valid() && slot.Valid() && discipline.Valid() && athlete.Valid()
    }

    function Of(t: Table): Dim
    {
      match t
      case CompetitionDim => competition
      case RangeDim => range
      case TeamDim => team
      case SlotDim => slot
      case DisciplineDim => discipline
      case AthleteDim => athlete
    }

    /** The warehouse with table `t` replaced and every other table as it was. */
    function With(t: Table, d: Dim): (r: Warehouse)
      ensures r.Of(t) == d && r.dates == dates
      ensures forall u :: u != t ==> r.Of(u) == Of(u)
      ensures Valid() && d.Valid() ==> r.Valid()
    {
      match t
      case CompetitionDim => this.(competition := d)
      case RangeDim => this.(range := d)
      case TeamDim => this.(team := d)
      case SlotDim => this.(slot := d)
      case DisciplineDim => this.(discipline := d)
      case AthleteDim => this.(athlete := d)
    }
  }

  /** `json.loads(payload)` for a payload that is a string, the payload itself otherwise; None when parsing raises. */
  function Decoded(payload: Json, parseJson: string -> Option<Json>): Option<Json>
  {
    if payload.JStr? then parseJson(payload.s) else Some(payload)
  }

  /** A `safe_int` result as a column value: None is SQL NULL. */
  function IntValue(o: Option<int>): Json
  {
    if o.Some? then JInt(o.value) else JNull
  }

  /** A truthy `safe_int` result (`if x:`), and its value. */
  predicate TruthyInt(o: Option<int>)
  {
    o.Some? && o.value != 0
  }

  /** Values a Python set accepts: a list or dict in `x in seen` raises TypeError. */
  predicate Hashable(v: Json)
  {
    !v.JArr? && !v.JObj?
  }

  /** `str(v)` of a scalar as an f-string shows it. */
  function Str(v: Json): string
    requires Hashable(v)
  {
    match v
    case JNull => "None"
    case JBool(b) => if b then "True" else "False"
    case JInt(n) => IntToString(n)
    case JStr(s) => s
  }

  // ---------------------------------------------------------------------------
  // One upsert inside a transform
  // ---------------------------------------------------------------------------

  /** One call of `upsert_dimension`: the natural-key value and the `dim_data` dict. */
  datatype Upsert = Upsert(id: Json, data: map<string, Json>)

  /**
   * `upsert_dimension(conn, TableName(t), NaturalKey(t), u.id, u.data)`
   * inside a transform: on an SQL error it rolls the connection back, which
   * leaves the warehouse as it was when the transform began.
   */
  function UpsertInto(start: Warehouse, w: Warehouse, t: Table, u: Upsert, env: Env): (r: (Option<nat>, Warehouse))
    requires start.Valid() && w.Valid()
    ensures r.1.Valid()
    ensures r.0.None? ==> r.1 == start
  {
    var (k, d) := UpsertDimension(w.Of(t), TableName(t), NaturalKey(t), u.id, u.data, None, env.fails(t, u.id));
    if k.None? then (None, start) else (k, w.With(t, d))
  }

  /**
   * A successful upsert of a non-NULL natural key leaves that key findable
   * under the returned surrogate key, adds at most one row, and changes no
   * other table and no date; a failed one restores `start`.
   */
  lemma UpsertIntoMeaning(start: Warehouse, w: Warehouse, t: Table, u: Upsert, env: Env)
    requires start.Valid() && w.Valid() && u.id != JNull && NaturalKey(t) !in u.data
    requires KeyFieldFor(TableName(t), None) == w.Of(t).keyField
    ensures var (k, w') := UpsertInto(start, w, t, u, env);
            (k.None? <==> env.fails(t, u.id)) &&
            (k.Some? ==> GetDimensionKey(w'.Of(t), NaturalKey(t), u.id) == k &&
                         |w'.Of(t).rows| <= |w.Of(t).rows| + 1 && w'.dates == w.dates &&
                         forall o :: o != t ==> w'.Of(o) == w.Of(o))
  {
    UpsertThenGet(w.Of(t), TableName(t), NaturalKey(t), u.id, u.data, None);
  }

  // ---------------------------------------------------------------------------
  // The `*_seen` sets
  // ---------------------------------------------------------------------------

  /** An upsert guarded by `if key not in seen`, with the key the set holds. */
  datatype Candidate<K> = Candidate(key: K, u: Upsert)

  /** The guarded upserts issued one after another, each on the tables the previous one left. */
  function ApplyAll<K>(start: Warehouse, w: Warehouse, t: Table, cs: seq<Candidate<K>>, env: Env): (r: Warehouse)
    requires start.Valid() && w.Valid()
    ensures r.Valid()
    decreases |cs|
  {
    if cs == [] then w else ApplyAll(start, UpsertInto(start, w, t, cs[0].u, env).1, t, cs[1..], env)
  }

  /**
   * Reference definition of `if key not in seen: seen.add(key); …` over a
   * sequence of candidates: those whose key is neither in `seen` nor held by
   * an earlier candidate, in order.
   */
  function FirstSeen<K>(seen: set<K>, cs: seq<Candidate<K>>): seq<Candidate<K>>
    decreases |cs|
  {
    if cs == [] then []
    else if cs[0].key in seen then FirstSeen(seen, cs[1..])
    else [cs[0]] + FirstSeen(seen + {cs[0].key}, cs[1..])
  }

  function CandidateKeys<K>(cs: seq<Candidate<K>>): set<K>
  {
    set i | 0 <= i < |cs| :: cs[i].key
  }

  predicate DistinctKeys<K(==)>(cs: seq<Candidate<K>>)
  {
    forall i, j :: 0 <= i < j < |cs| ==> cs[i].key != cs[j].key
  }

  lemma CandidateKeysAppend<K>(a: seq<Candidate<K>>, b: seq<Candidate<K>>)
    ensures CandidateKeys(a + b) == CandidateKeys(a) + CandidateKeys(b)
  {
    var ab := a + b;
    forall k | k in CandidateKeys(ab) ensures k in CandidateKeys(a) + CandidateKeys(b) {
      var i :| 0 <= i < |ab| && ab[i].key == k;
      if i >= |a| {
        assert b[i - |a|] == ab[i];
      }
    }
    forall k | k in CandidateKeys(a) ensures k in CandidateKeys(ab) {
      var i :| 0 <= i < |a| && a[i].key == k;
      assert ab[i] == a[i];
    }
    forall k | k in CandidateKeys(b) ensures k in CandidateKeys(ab) {
      var i :| 0 <= i < |b| && b[i].key == k;
      assert ab[i + |a|] == b[i];
    }
  }

  lemma SeqAssoc<T>(a: seq<T>, b: seq<T>, c: seq<T>)
    ensures a + b + c == a + (b + c)
  {
  }

  /**
   * Each key is issued at most once and never when it was already seen;
   * every other key offered is issued, by its first candidate.
   */
  lemma {:induction false} FirstSeenKeys<K>(seen: set<K>, cs: seq<Candidate<K>>)
    ensures DistinctKeys(FirstSeen(seen, cs))
    ensures CandidateKeys(FirstSeen(seen, cs)) == CandidateKeys(cs) - seen
    ensures forall i :: 0 <= i < |FirstSeen(seen, cs)| ==> FirstSeen(seen, cs)[i] in cs
    decreases |cs|
  {
    if cs != [] {
      var rest := cs[1..];
      var c := cs[0];
      assert cs == [c] + rest;
      CandidateKeysAppend([c], rest);
      assert CandidateKeys([c]) == {c.key};
      if c.key in seen {
        FirstSeenKeys(seen, rest);
      } else {
        var tail := FirstSeen(seen + {c.key}, rest);
        FirstSeenKeys(seen + {c.key}, rest);
        var r := [c] + tail;
        CandidateKeysAppend([c], tail);
        forall i, j | 0 <= i < j < |r| ensures r[i].key != r[j].key {
          assert r[j] == tail[j - 1];
          if i > 0 {
            assert r[i] == tail[i - 1];
          } else {
            assert r[j].key in CandidateKeys(tail);
          }
        }
      }
    }
  }

  /** Offering `a` and then `b`: the keys of `a` are seen by the time `b` is offered. */
  lemma {:induction false} FirstSeenAppend<K>(seen: set<K>, a: seq<Candidate<K>>, b: seq<Candidate<K>>)
    ensures FirstSeen(seen, a + b) == FirstSeen(seen, a) + FirstSeen(seen + CandidateKeys(a), b)
    decreases |a|
  {
    if a == [] {
      assert a + b == b;
      assert CandidateKeys(a) == {};
      assert seen + {} == seen;
    } else {
      assert (a + b)[1..] == a[1..] + b;
      assert a == [a[0]] + a[1..];
      CandidateKeysAppend([a[0]], a[1..]);
      assert CandidateKeys([a[0]]) == {a[0].key};
      if a[0].key in seen {
        FirstSeenAppend(seen, a[1..], b);
        assert seen + CandidateKeys(a) == seen + CandidateKeys(a[1..]);
      } else {
        FirstSeenAppend(seen + {a[0].key}, a[1..], b);
        assert seen + {a[0].key} + CandidateKeys(a[1..]) == seen + CandidateKeys(a);
        SeqAssoc([a[0]], FirstSeen(seen + {a[0].key}, a[1..]), FirstSeen(seen + CandidateKeys(a), b));
      }
    }
  }

  /** Issuing `a` and then `b` is issuing `a + b`. */
  lemma {:induction false} ApplyAllAppend<K>(start: Warehouse, w: Warehouse, t: Table, a: seq<Candidate<K>>, b: seq<Candidate<K>>, env: Env)
    requires start.Valid() && w.Valid()
    ensures ApplyAll(start, w, t, a + b, env) == ApplyAll(start, ApplyAll(start, w, t, a, env), t, b, env)
    decreases |a|
  {
    if a == [] {
      assert a + b == b;
    } else {
      assert (a + b)[1..] == a[1..] + b;
      ApplyAllAppend(start, UpsertInto(start, w, t, a[0].u, env).1, t, a[1..], b, env);
    }
  }

  /** The two facts a guarded loop carries: what it has issued and what the rest of the candidates will do. */
  predicate Pending<K>(start: Warehouse, t: Table, seen: set<K>, cur: Warehouse, log: seq<Candidate<K>>,
                       todo: seq<Candidate<K>>, total: seq<Candidate<K>>, final: Warehouse, env: Env)
    requires start.Valid() && cur.Valid()
  {
    log + FirstSeen(seen, todo) == total && ApplyAll(start, cur, t, FirstSeen(seen, todo), env) == final
  }

  /** The loop issues candidate `c` unless its key is seen; either way the facts carry over to the rest. */
  lemma OfferStep<K>(start: Warehouse, t: Table, seen: set<K>, cur: Warehouse, log: seq<Candidate<K>>,
                     c: Candidate<K>, todo: seq<Candidate<K>>, total: seq<Candidate<K>>, final: Warehouse, env: Env)
    requires start.Valid() && cur.Valid()
    requires Pending(start, t, seen, cur, log, [c] + todo, total, final, env)
    ensures c.key in seen ==> Pending(start, t, seen, cur, log, todo, total, final, env)
    ensures c.key !in seen ==>
              Pending(start, t, seen + {c.key}, UpsertInto(start, cur, t, c.u, env).1, log + [c], todo, total, final, env)
  {
    assert ([c] + todo)[1..] == todo;
    if c.key !in seen {
      SeqAssoc(log, [c], FirstSeen(seen + {c.key}, todo));
    }
  }

  /**
   * `if key not in seen: seen.add(key); upsert_dimension(...)`: the guarded
   * upsert of one candidate, after which the loop's facts hold of the rest.
   */
  method Guard<K>(start: Warehouse, t: Table, seen: set<K>, w: Warehouse, log: seq<Candidate<K>>, c: Candidate<K>,
                  ghost todo: seq<Candidate<K>>, ghost total: seq<Candidate<K>>, ghost final: Warehouse, env: Env)
    returns (seen': set<K>, w': Warehouse, log': seq<Candidate<K>>)
    requires start.Valid() && w.Valid()
    requires Pending(start, t, seen, w, log, [c] + todo, total, final, env)
    ensures w'.Valid() && Pending(start, t, seen', w', log', todo, total, final, env)
    ensures seen' == seen + {c.key}
    ensures c.key in seen ==> w' == w && log' == log
    ensures c.key !in seen ==> log' == log + [c]
  {
    OfferStep(start, t, seen, w, log, c, todo, total, final, env);
    if c.key in seen {
      return seen, w, log;
    }
    var (_, w1) := UpsertInto(start, w, t, c.u, env);
    seen', w', log' := seen + {c.key}, w1, log + [c];
  }

  // ---------------------------------------------------------------------------
  // transform_ranges
  // ---------------------------------------------------------------------------

  /** What one turn of a guarded loop finds before the guard: an exception, nothing to offer, or a candidate. */
  datatype Found<K> = Raises | Skip | Take(c: Candidate<K>)

  /**
   * Lines 30 and 91: `data.get('data', [data]) if 'data' in data else [data]`.
   * A payload that is not a dict raises before any competition is looked
   * at (either `in` fails or the first `.get` does).
   */
  function PayloadCompetitions(data: Json): (r: Option<seq<Json>>)
    ensures data.JObj? && !HasKey(data, "data") ==> r == Some([data])
    ensures data.JObj? && HasKey(data, "data") ==> r == TransformFacts.Iterate(Get(data, "data"))
    ensures !data.JObj? ==> r.None?
  {
    if !data.JObj? then None
    else if HasKey(data, "data") then TransformFacts.Iterate(Get(data, "data"))
    else Some([data])
  }

  /** The competitions of a raw payload; None when decoding or the selection raises. */
  function CompetitionsOf(payload: Json, parseJson: string -> Option<Json>): Option<seq<Json>>
  {
    var data := Decoded(payload, parseJson);
    if data.None? then None else PayloadCompetitions(data.value)
  }

  /** The `dim_data` of a range taken from a competition (lines 98-105). */
  function RangeColumns(info: Json): map<string, Json>
    requires info.JObj?
  {
    map["name" := Get(info, "name"), "type_id" := IntValue(SafeInt(Get(info, "type_id"))),
        "contact" := Get(info, "contact"), "phone" := Get(info, "phone"), "email" := Get(info, "email"),
        "url" := Get(info, "url")]
  }

  /**
   * Lines 94-96 for one competition: a truthy `range` must be a dict, and a
   * truthy id of it must be hashable for the `not in ranges_seen` test.
   */
  function CompetitionRange(comp: Json): Found<Json>
  {
    if !comp.JObj? then Raises
    else
      var info := Get(comp, "range");
      if !Truthy(info) then Skip
      else if !info.JObj? then Raises
      else
        var id := Get(info, "id");
        if !Truthy(id) then Skip
        else if !Hashable(id) then Raises
        else Take(Candidate(id, Upsert(id, RangeColumns(info))))
  }

  /** The ranges the competition loop of one payload offers, up to an exception. */
  function CompetitionRanges(comps: seq<Json>): seq<Candidate<Json>>
  {
    if comps == [] then []
    else match CompetitionRange(comps[0])
      case Raises => []
      case Skip => CompetitionRanges(comps[1..])
      case Take(c) => [c] + CompetitionRanges(comps[1..])
  }

  function CompetitionPayloadsRanges(payloads: seq<Json>, parseJson: string -> Option<Json>): seq<Candidate<Json>>
  {
    if payloads == [] then []
    else
      var comps := CompetitionsOf(payloads[0], parseJson);
      (if comps.None? then [] else CompetitionRanges(comps.value)) + CompetitionPayloadsRanges(payloads[1..], parseJson)
  }

  /**
   * Lines 126-134 for one team payload: a truthy `home_range_id` with the
   * placeholder name `Range <id>`. A payload that is not a dict writes
   * nothing (it raises, or `'home_range_id' in data` is false).
   */
  function TeamRange(payload: Json, parseJson: string -> Option<Json>): Found<Json>
  {
    var data := Decoded(payload, parseJson);
    if data.None? || !data.value.JObj? then Raises
    else if !HasKey(data.value, "home_range_id") then Skip
    else
      var id := Get(data.value, "home_range_id");
      if !Hashable(id) then Raises
      else if !Truthy(id) then Skip
      else Take(Candidate(id, Upsert(id, map["name" := JStr("Range " + Str(id))])))
  }

  function TeamPayloadsRanges(payloads: seq<Json>, parseJson: string -> Option<Json>): seq<Candidate<Json>>
  {
    if payloads == [] then []
    else
      (match TeamRange(payloads[0], parseJson) case Take(c) => [c] case _ => []) +
      TeamPayloadsRanges(payloads[1..], parseJson)
  }

  /** Every range `transform_ranges` considers, in loop order: the competitions' first. */
  function RangeCandidates(competitions: seq<Json>, teams: seq<Json>, parseJson: string -> Option<Json>): seq<Candidate<Json>>
  {
    CompetitionPayloadsRanges(competitions, parseJson) + TeamPayloadsRanges(teams, parseJson)
  }

  lemma CompetitionPayloadsStep(payloads: seq<Json>, i: nat, parseJson: string -> Option<Json>, later: seq<Candidate<Json>>)
    requires i < |payloads|
    ensures var comps := CompetitionsOf(payloads[i], parseJson);
            CompetitionPayloadsRanges(payloads[i..], parseJson) + later ==
            (if comps.None? then [] else CompetitionRanges(comps.value)) +
            (CompetitionPayloadsRanges(payloads[i + 1..], parseJson) + later)
  {
    var ps := payloads[i..];
    assert ps[0] == payloads[i] && ps[1..] == payloads[i + 1..];
    var comps := CompetitionsOf(payloads[i], parseJson);
    var a := if comps.None? then [] else CompetitionRanges(comps.value);
    var b := CompetitionPayloadsRanges(payloads[i + 1..], parseJson);
    assert CompetitionPayloadsRanges(ps, parseJson) == a + b;
    SeqAssoc(a, b, later);
  }

  lemma TeamPayloadsStep(payloads: seq<Json>, i: nat, parseJson: string -> Option<Json>)
    requires i < |payloads|
    ensures TeamPayloadsRanges(payloads[i..], parseJson) ==
            (match TeamRange(payloads[i], parseJson) case Take(c) => [c] case _ => []) +
            TeamPayloadsRanges(payloads[i + 1..], parseJson)
  {
    assert payloads[i..][1..] == payloads[i + 1..];
  }

  /** Lines 93-110: the competitions of one payload, up to an exception. */
  method CompetitionRangeLoop(start: Warehouse, seen: set<Json>, w: Warehouse, log: seq<Candidate<Json>>, cs: seq<Json>,
                              ghost later: seq<Candidate<Json>>, ghost total: seq<Candidate<Json>>, ghost final: Warehouse,
                              env: Env)
    returns (seen': set<Json>, w': Warehouse, log': seq<Candidate<Json>>)
    requires start.Valid() && w.Valid()
    requires Pending(start, RangeDim, seen, w, log, CompetitionRanges(cs) + later, total, final, env)
    ensures w'.Valid() && Pending(start, RangeDim, seen', w', log', later, total, final, env)
  {
    seen', w', log' := seen, w, log;
    var j := 0;
    while j < |cs|
      invariant j <= |cs| && w'.Valid()
      invariant Pending(start, RangeDim, seen', w', log', CompetitionRanges(cs[j..]) + later, total, final, env)
    {
      assert cs[j..][1..] == cs[j + 1..];
      var found := CompetitionRange(cs[j]);
      if found.Raises? {
        break;
      }
      if found.Take? {
        SeqAssoc([found.c], CompetitionRanges(cs[j + 1..]), later);
        seen', w', log' := Guard(start, RangeDim, seen', w', log', found.c, CompetitionRanges(cs[j + 1..]) + later,
                                 total, final, env);
      }
      j := j + 1;
    }
    if j == |cs| {
      assert CompetitionRanges(cs[j..]) == [];
    }
    assert [] + later == later;
  }

  /** Lines 84-112: every competition payload, each up to its own exception. */
  method CompetitionPayloadLoop(start: Warehouse, seen: set<Json>, w: Warehouse, log: seq<Candidate<Json>>,
                                payloads: seq<Json>, ghost later: seq<Candidate<Json>>, ghost total: seq<Candidate<Json>>,
                                ghost final: Warehouse, env: Env)
    returns (seen': set<Json>, w': Warehouse, log': seq<Candidate<Json>>)
    requires start.Valid() && w.Valid()
    requires Pending(start, RangeDim, seen, w, log, CompetitionPayloadsRanges(payloads, env.parseJson) + later, total, final, env)
    ensures w'.Valid() && Pending(start, RangeDim, seen', w', log', later, total, final, env)
  {
    seen', w', log' := seen, w, log;
    assert payloads[0..] == payloads;
    for i := 0 to |payloads|
      invariant w'.Valid()
      invariant Pending(start, RangeDim, seen', w', log',
                        CompetitionPayloadsRanges(payloads[i..], env.parseJson) + later, total, final, env)
    {
      ghost var rest := CompetitionPayloadsRanges(payloads[i + 1..], env.parseJson) + later;
      CompetitionPayloadsStep(payloads, i, env.parseJson, later);
      var comps := CompetitionsOf(payloads[i], env.parseJson);
      if comps.Some? {
        seen', w', log' := CompetitionRangeLoop(start, seen', w', log', comps.value, rest, total, final, env);
      } else {
        assert [] + rest == rest;
      }
    }
    assert payloads[|payloads|..] == [];
    assert [] + later == later;
  }

  /** Lines 118-142: the team payloads. */
  method TeamRangeLoop(start: Warehouse, seen: set<Json>, w: Warehouse, log: seq<Candidate<Json>>, payloads: seq<Json>,
                       ghost total: seq<Candidate<Json>>, ghost final: Warehouse, env: Env)
    returns (seen': set<Json>, w': Warehouse, log': seq<Candidate<Json>>)
    requires start.Valid() && w.Valid()
    requires Pending(start, RangeDim, seen, w, log, TeamPayloadsRanges(payloads, env.parseJson), total, final, env)
    ensures w'.Valid() && Pending(start, RangeDim, seen', w', log', [], total, final, env)
  {
    seen', w', log' := seen, w, log;
    assert payloads[0..] == payloads;
    for i := 0 to |payloads|
      invariant w'.Valid()
      invariant Pending(start, RangeDim, seen', w', log', TeamPayloadsRanges(payloads[i..], env.parseJson), total, final, env)
    {
      TeamPayloadsStep(payloads, i, env.parseJson);
      var found := TeamRange(payloads[i], env.parseJson);
      ghost var rest := TeamPayloadsRanges(payloads[i + 1..], env.parseJson);
      if found.Take? {
        seen', w', log' := Guard(start, RangeDim, seen', w', log', found.c, rest, total, final, env);
      } else {
        assert [] + rest == rest;
      }
    }
    assert payloads[|payloads|..] == [];
  }

  /**
   * `transform_ranges(conn)`: the guarded upserts it issues are exactly the
   * first occurrence of every range id, competitions first, and the range
   * table is what they leave.
   */
  method TransformRanges(w: Warehouse, competitions: seq<Json>, teams: seq<Json>, env: Env)
    returns (w': Warehouse, upserted: seq<Candidate<Json>>)
    requires w.Valid()
    ensures upserted == FirstSeen({}, RangeCandidates(competitions, teams, env.parseJson))
    ensures w' == ApplyAll(w, w, RangeDim, upserted, env)
  {
    ghost var total := FirstSeen({}, RangeCandidates(competitions, teams, env.parseJson));
    ghost var final := ApplyAll(w, w, RangeDim, total, env);
    var seen: set<Json>;
    seen, w', upserted := CompetitionPayloadLoop(w, {}, w, [], competitions, TeamPayloadsRanges(teams, env.parseJson),
                                                 total, final, env);
    seen, w', upserted := TeamRangeLoop(w, seen, w', upserted, teams, total, final, env);
    assert FirstSeen(seen, []) == [];
    assert upserted + [] == upserted;
  }

  /** The range upserts repeat no id, and every range id offered by either phase is upserted. */
  lemma RangesUpsertedOnce(competitions: seq<Json>, teams: seq<Json>, parseJson: string -> Option<Json>)
    ensures var cs := RangeCandidates(competitions, teams, parseJson);
            DistinctKeys(FirstSeen({}, cs)) && CandidateKeys(FirstSeen({}, cs)) == CandidateKeys(cs)
  {
    FirstSeenKeys({}, RangeCandidates(competitions, teams, parseJson));
  }

  /**
   * The competition ranges are upserted first; a team's range is upserted
   * afterwards only when no competition carried its id.
   */
  lemma CompetitionRangesFirst(competitions: seq<Json>, teams: seq<Json>, parseJson: string -> Option<Json>)
    ensures var a := CompetitionPayloadsRanges(competitions, parseJson);
            FirstSeen({}, RangeCandidates(competitions, teams, parseJson)) ==
            FirstSeen({}, a) + FirstSeen(CandidateKeys(a), TeamPayloadsRanges(teams, parseJson))
  {
    var a := CompetitionPayloadsRanges(competitions, parseJson);
    FirstSeenAppend({}, a, TeamPayloadsRanges(teams, parseJson));
    assert {} + CandidateKeys(a) == CandidateKeys(a);
  }

  /** A team payload with a non-zero integer `home_range_id` offers that range under the name `Range <id>`. */
  lemma TeamRangePlaceholder(fields: seq<Field>, n: int, parseJson: string -> Option<Json>)
    requires n != 0 && Lookup(fields, "home_range_id") == Some(JInt(n))
    ensures TeamRange(JObj(fields), parseJson) ==
            Take(Candidate(JInt(n), Upsert(JInt(n), map["name" := JStr("Range " + IntToString(n))])))
  {
  }

  /** Every range offered has a truthy, hashable id, which is also the natural key it is upserted under. */
  lemma {:induction false} CompetitionRangesTruthy(comps: seq<Json>)
    ensures forall c :: c in CompetitionRanges(comps) ==> Truthy(c.key) && Hashable(c.key) && c.u.id == c.key
  {
    if comps != [] {
      CompetitionRangesTruthy(comps[1..]);
    }
  }

  // ---------------------------------------------------------------------------
  // Unguarded upsert loops
  // ---------------------------------------------------------------------------

  /** Issuing the first of the remaining upserts. */
  lemma ApplyStep<K>(start: Warehouse, w: Warehouse, t: Table, c: Candidate<K>, todo: seq<Candidate<K>>, env: Env)
    requires start.Valid() && w.Valid()
    ensures ApplyAll(start, w, t, [c] + todo, env) == ApplyAll(start, UpsertInto(start, w, t, c.u, env).1, t, todo, env)
  {
    assert ([c] + todo)[1..] == todo;
  }

  // ---------------------------------------------------------------------------
  // transform_teams
  // ---------------------------------------------------------------------------

  /** The `dim_data` of a team (lines 165-172). */
  function TeamColumns(data: Json): map<string, Json>
    requires data.JObj?
  {
    map["name" := Get(data, "name"), "org" := Get(data, "org"), "paper_name" := Get(data, "paper_name"),
        "paper_email" := Get(data, "paper_email"), "state_id_nat" := IntValue(SafeInt(Get(data, "state_id"))),
        "home_range_id_nat" := IntValue(SafeInt(Get(data, "home_range_id")))]
  }

  /** Lines 156-177 for one payload: a dict with a truthy `id` is upserted under it; anything else writes nothing. */
  function TeamUpsert(payload: Json, parseJson: string -> Option<Json>): Found<Json>
  {
    var data := Decoded(payload, parseJson);
    if data.None? || !data.value.JObj? then Raises
    else if !Truthy(Get(data.value, "id")) then Skip
    else Take(Candidate(Get(data.value, "id"), Upsert(Get(data.value, "id"), TeamColumns(data.value))))
  }

  function TeamUpserts(payloads: seq<Json>, parseJson: string -> Option<Json>): (cs: seq<Candidate<Json>>)
    ensures |cs| <= |payloads|
  {
    if payloads == [] then []
    else
      (match TeamUpsert(payloads[0], parseJson) case Take(c) => [c] case _ => []) + TeamUpserts(payloads[1..], parseJson)
  }

  /** Only payloads with a truthy id reach `upsert_dimension`, each under that id. */
  lemma {:induction false} TeamUpsertsTruthy(payloads: seq<Json>, parseJson: string -> Option<Json>)
    ensures forall c :: c in TeamUpserts(payloads, parseJson) ==> Truthy(c.u.id)
  {
    if payloads != [] {
      TeamUpsertsTruthy(payloads[1..], parseJson);
    }
  }

  /** `transform_teams(conn)`: one upsert per payload that is a dict with a truthy `id`, in order. */
  method TransformTeams(w: Warehouse, payloads: seq<Json>, env: Env) returns (w': Warehouse)
    requires w.Valid()
    ensures w' == ApplyAll(w, w, TeamDim, TeamUpserts(payloads, env.parseJson), env)
  {
    w' := w;
    ghost var final := ApplyAll(w, w, TeamDim, TeamUpserts(payloads, env.parseJson), env);
    assert payloads[0..] == payloads;
    for i := 0 to |payloads|
      invariant w'.Valid()
      invariant ApplyAll(w, w', TeamDim, TeamUpserts(payloads[i..], env.parseJson), env) == final
    {
      assert payloads[i..][1..] == payloads[i + 1..];
      var found := TeamUpsert(payloads[i], env.parseJson);
      if found.Take? {
        ApplyStep(w, w', TeamDim, found.c, TeamUpserts(payloads[i + 1..], env.parseJson), env);
        var (_, w1) := UpsertInto(w, w', TeamDim, found.c.u, env);
        w' := w1;
      } else {
        assert [] + TeamUpserts(payloads[i + 1..], env.parseJson) == TeamUpserts(payloads[i + 1..], env.parseJson);
      }
    }
  }

  // ---------------------------------------------------------------------------
  // transform_schedule_slots
  // ---------------------------------------------------------------------------

  /** The `dim_data` of a slot (lines 208-216): the location and range names come from the schedule. */
  function SlotColumns(data: Json, slot: Json): map<string, Json>
    requires data.JObj? && slot.JObj?
  {
    map["number" := IntValue(SafeInt(Get(slot, "number"))), "name" := Get(slot, "name"), "stage" := Get(slot, "stage"),
        "discipline_name" := Get(slot, "discipline"), "location_name" := Get(data, "location_name"),
        "range_name" := Get(data, "range_name"), "expanded" := GetOr(slot, "expanded", JBool(false))]
  }

  /** Lines 204-221 for one slot: a non-dict raises; a falsy `rid` is skipped. */
  function SlotUpsert(data: Json, slot: Json): Found<Json>
    requires data.JObj?
  {
    if !slot.JObj? then Raises
    else if !Truthy(Get(slot, "rid")) then Skip
    else Take(Candidate(Get(slot, "rid"), Upsert(Get(slot, "rid"), SlotColumns(data, slot))))
  }

  function SlotUpserts(data: Json, slots: seq<Json>): seq<Candidate<Json>>
    requires data.JObj?
  {
    if slots == [] then []
    else match SlotUpsert(data, slots[0])
      case Raises => []
      case Skip => SlotUpserts(data, slots[1..])
      case Take(c) => [c] + SlotUpserts(data, slots[1..])
  }

  /** The slots of one payload: `data.get('slots', [])` iterated; None when that raises. */
  function PayloadSlots(payload: Json, parseJson: string -> Option<Json>): Option<(Json, seq<Json>)>
    ensures var r := PayloadSlots(payload, parseJson); r.Some? ==> r.value.0.JObj?
  {
    var data := Decoded(payload, parseJson);
    if data.None? || !data.value.JObj? then None
    else
      var slots := TransformFacts.Iterate(GetOr(data.value, "slots", JArr([])));
      if slots.None? then None else Some((data.value, slots.value))
  }

  function PayloadsSlotUpserts(payloads: seq<Json>, parseJson: string -> Option<Json>): seq<Candidate<Json>>
  {
    if payloads == [] then []
    else
      var ps := PayloadSlots(payloads[0], parseJson);
      (if ps.None? then [] else SlotUpserts(ps.value.0, ps.value.1)) + PayloadsSlotUpserts(payloads[1..], parseJson)
  }

  /** A slot that is not a dict ends its payload: none of the slots after it is upserted. */
  lemma SlotRaiseEndsPayload(data: Json, slots: seq<Json>, k: nat)
    requires data.JObj? && k < |slots| && !slots[k].JObj?
    ensures SlotUpserts(data, slots) == SlotUpserts(data, slots[..k])
    decreases k
  {
    if k > 0 {
      SlotRaiseEndsPayload(data, slots[1..], k - 1);
      assert slots[1..][..k - 1] == slots[..k][1..];
    }
  }

  /** Lines 204-224: the slots of one payload, up to an exception. */
  method SlotLoop(start: Warehouse, w: Warehouse, data: Json, slots: seq<Json>, ghost later: seq<Candidate<Json>>,
                  ghost final: Warehouse, env: Env) returns (w': Warehouse)
    requires start.Valid() && w.Valid() && data.JObj?
    requires ApplyAll(start, w, SlotDim, SlotUpserts(data, slots) + later, env) == final
    ensures w'.Valid() && ApplyAll(start, w', SlotDim, later, env) == final
  {
    w' := w;
    var j := 0;
    while j < |slots|
      invariant j <= |slots| && w'.Valid()
      invariant ApplyAll(start, w', SlotDim, SlotUpserts(data, slots[j..]) + later, env) == final
    {
      assert slots[j..][1..] == slots[j + 1..];
      var found := SlotUpsert(data, slots[j]);
      if found.Raises? {
        break;
      }
      if found.Take? {
        SeqAssoc([found.c], SlotUpserts(data, slots[j + 1..]), later);
        ApplyStep(start, w', SlotDim, found.c, SlotUpserts(data, slots[j + 1..]) + later, env);
        var (_, w1) := UpsertInto(start, w', SlotDim, found.c.u, env);
        w' := w1;
      }
      j := j + 1;
    }
    if j == |slots| {
      assert SlotUpserts(data, slots[j..]) == [];
    }
    assert [] + later == later;
  }

  /** `transform_schedule_slots(conn)`: one upsert per dict slot with a truthy `rid`, in loop order. */
  method TransformScheduleSlots(w: Warehouse, payloads: seq<Json>, env: Env) returns (w': Warehouse)
    requires w.Valid()
    ensures w' == ApplyAll(w, w, SlotDim, PayloadsSlotUpserts(payloads, env.parseJson), env)
  {
    w' := w;
    ghost var final := ApplyAll(w, w, SlotDim, PayloadsSlotUpserts(payloads, env.parseJson), env);
    assert payloads[0..] == payloads;
    for i := 0 to |payloads|
      invariant w'.Valid()
      invariant ApplyAll(w, w', SlotDim, PayloadsSlotUpserts(payloads[i..], env.parseJson), env) == final
    {
      assert payloads[i..][1..] == payloads[i + 1..];
      ghost var later := PayloadsSlotUpserts(payloads[i + 1..], env.parseJson);
      var ps := PayloadSlots(payloads[i], env.parseJson);
      if ps.Some? {
        w' := SlotLoop(w, w', ps.value.0, ps.value.1, later, final, env);
      } else {
        assert [] + later == later;
      }
    }
  }

  // ---------------------------------------------------------------------------
  // transform_competitions
  // ---------------------------------------------------------------------------

  /** The columns of `dim_competition` copied from the payload as they are (lines 37-50). */
  const CopiedCompetitionFields: seq<string> :=
    ["name", "org", "type", "status", "shooting_style", "stage_one", "stage_two", "stage_three",
     "stage_four", "start_date", "end_date", "open_date", "close_date"]

  /**
   * The `dim_data` of a competition (lines 36-52); None when the range
   * expression raises (a truthy `range` that is not a dict has no `get`).
   */
  function CompetitionColumns(comp: Json): Option<map<string, Json>>
    requires comp.JObj?
  {
    var range := Get(comp, "range");
    if Truthy(range) && !range.JObj? then None
    else
      var copied := map k | k in CopiedCompetitionFields :: Get(comp, k);
      Some(copied["hosting_team_id_nat" := IntValue(SafeInt(Get(comp, "hosting_team_id")))]
                 ["range_id_nat" := IntValue(if Truthy(range) then SafeInt(Get(range, "id")) else None)])
  }

  /** Without a range the competition's `range_id_nat` is NULL. */
  lemma NoRangeNoRangeId(comp: Json)
    requires comp.JObj? && !Truthy(Get(comp, "range"))
    ensures CompetitionColumns(comp).Some? && CompetitionColumns(comp).value["range_id_nat"] == JNull
  {
  }

  /** The date columns whose keys are ensured, in the order of line 61. */
  const DateFields: seq<string> := ["start_date", "end_date", "open_date", "close_date"]

  /**
   * The open transaction of `transform_competitions`: the warehouse as the
   * connection sees it, and whether a failed date cast, swallowed by
   * `ensure_date_dimension`, has aborted it.
   */
  datatype Txn = Txn(w: Warehouse, aborted: bool)

  /**
   * Lines 61-64: `ensure_date_dimension` for every truthy date key of the
   * listed fields; a truthy number or boolean raises in `to_date_key`, which
   * ends the payload. The result is the date rows, whether that happened,
   * and whether the transaction is aborted now; once it is, no date row is
   * added.
   */
  function EnsureDates(dates: map<int, DateRow>, comp: Json, fields: seq<string>, env: Env, aborted: bool)
    : (r: (map<int, DateRow>, bool, bool))
    requires comp.JObj?
    ensures dates.Keys <= r.0.Keys && forall k :: k in dates ==> r.0[k] == dates[k]
    ensures aborted ==> r.0 == dates && r.2
    decreases |fields|
  {
    if fields == [] then (dates, false, aborted)
    else match TransformFacts.DateArg(Get(comp, fields[0]), env.parseIso)
      case Raises => (dates, true, aborted)
      case Value(k) =>
        var next := if k.Some? && k.value != 0 then EnsureDateIn(dates, k.value, env.isDate, aborted) else (dates, aborted);
        EnsureDates(next.0, comp, fields[1..], env, next.1)
  }

  /**
   * Lines 32-66 for one competition, and whether it raised: a non-dict
   * raises, a falsy `id` is skipped, and the dates are ensured only when
   * the upsert returned a truthy key. On an aborted transaction the
   * upsert's first SELECT raises, so `upsert_dimension` rolls back to the
   * transform's start, which also ends the abort, and returns None.
   */
  function CompetitionStep(start: Warehouse, tx: Txn, comp: Json, env: Env): (r: (Txn, bool))
    requires start.Valid() && tx.w.Valid()
    ensures r.0.w.Valid()
    ensures tx.aborted && comp.JObj? && Truthy(Get(comp, "id")) && CompetitionColumns(comp).Some? ==>
              r == (Txn(start, false), false)
  {
    if !comp.JObj? then (tx, true)
    else if !Truthy(Get(comp, "id")) then (tx, false)
    else match CompetitionColumns(comp)
      case None => (tx, true)
      case Some(cols) =>
        if tx.aborted then (Txn(start, false), false)
        else
          var (k, w1) := UpsertInto(start, tx.w, CompetitionDim, Upsert(Get(comp, "id"), cols), env);
          if k.Some? && k.value != 0 then
            var (dates, raised, aborted) := EnsureDates(w1.dates, comp, DateFields, env, false);
            (Txn(w1.(dates := dates), aborted), raised)
          else (Txn(w1, false), false)
  }

  /** A competition with a falsy id changes nothing and does not end the payload. */
  lemma FalsyIdSkipped(start: Warehouse, tx: Txn, comp: Json, env: Env)
    requires start.Valid() && tx.w.Valid() && comp.JObj? && !Truthy(Get(comp, "id"))
    ensures CompetitionStep(start, tx, comp, env) == (tx, false)
  {
  }

  /**
   * A competition with a truthy id whose upsert succeeds is findable by
   * that id, changes no other dimension, and keeps every date row there
   * was; when the upsert fails, or the transaction was aborted, the
   * warehouse is back at `start` and the transaction open again.
   */
  lemma CompetitionStepMeaning(start: Warehouse, tx: Txn, comp: Json, env: Env)
    requires start.Valid() && tx.w.Valid() && comp.JObj? && Truthy(Get(comp, "id"))
    requires KeyFieldFor("dim_competition", None) == tx.w.competition.keyField
    requires CompetitionColumns(comp).Some?
    ensures var (tx', _) := CompetitionStep(start, tx, comp, env);
            (tx.aborted || env.fails(CompetitionDim, Get(comp, "id")) ==> tx' == Txn(start, false)) &&
            (!tx.aborted && !env.fails(CompetitionDim, Get(comp, "id")) ==>
               var w, w' := tx.w, tx'.w;
               GetDimensionKey(w'.competition, "competition_id_nat", Get(comp, "id")).Some? &&
               w'.range == w.range && w'.team == w.team && w'.slot == w.slot &&
               w'.discipline == w.discipline && w'.athlete == w.athlete && w.dates.Keys <= w'.dates.Keys)
  {
    var u := Upsert(Get(comp, "id"), CompetitionColumns(comp).value);
    CompetitionColumnsOmitKey(comp);
    UpsertIntoMeaning(start, tx.w, CompetitionDim, u, env);
  }

  /** The natural key is not among the columns, so `upsert_dimension` adds it itself. */
  lemma CompetitionColumnsOmitKey(comp: Json)
    requires comp.JObj? && CompetitionColumns(comp).Some?
    ensures "competition_id_nat" !in CompetitionColumns(comp).value
  {
  }

  /** The competitions of one payload, up to an exception. */
  function CompetitionsRun(start: Warehouse, tx: Txn, comps: seq<Json>, env: Env): (r: Txn)
    requires start.Valid() && tx.w.Valid()
    ensures r.w.Valid()
    decreases |comps|
  {
    if comps == [] then tx
    else
      var (tx1, raised) := CompetitionStep(start, tx, comps[0], env);
      if raised then tx1 else CompetitionsRun(start, tx1, comps[1..], env)
  }

  function CompetitionPayloads(start: Warehouse, tx: Txn, payloads: seq<Json>, env: Env): (r: Txn)
    requires start.Valid() && tx.w.Valid()
    ensures r.w.Valid()
    decreases |payloads|
  {
    if payloads == [] then tx
    else
      var comps := CompetitionsOf(payloads[0], env.parseJson);
      CompetitionPayloads(start, if comps.None? then tx else CompetitionsRun(start, tx, comps.value, env), payloads[1..], env)
  }

  /** Line 71: the commit of a transaction that is still aborted is a rollback to its start. */
  function Committed(start: Warehouse, tx: Txn): Warehouse
  {
    if tx.aborted then start else tx.w
  }

  /** Lines 61-64. */
  method EnsureDateLoop(dates: map<int, DateRow>, comp: Json, env: Env, aborted: bool)
    returns (dates': map<int, DateRow>, raised: bool, aborted': bool)
    requires comp.JObj?
    ensures (dates', raised, aborted') == EnsureDates(dates, comp, DateFields, env, aborted)
  {
    dates', aborted' := dates, aborted;
    raised := false;
    for i := 0 to |DateFields|
      invariant EnsureDates(dates', comp, DateFields[i..], env, aborted') == EnsureDates(dates, comp, DateFields, env, aborted)
    {
      assert DateFields[i..][1..] == DateFields[i + 1..];
      var key := TransformFacts.DateArg(Get(comp, DateFields[i]), env.parseIso);
      if key.Raises? {
        return dates', true, aborted';
      }
      if key.v.Some? && key.v.value != 0 {
        dates', aborted' := EnsureDateIn(dates', key.v.value, env.isDate, aborted').0,
                            EnsureDateIn(dates', key.v.value, env.isDate, aborted').1;
      }
    }
  }

  /** Lines 32-66 for one competition. */
  method ProcessCompetition(start: Warehouse, tx: Txn, comp: Json, env: Env) returns (tx': Txn, raised: bool)
    requires start.Valid() && tx.w.Valid()
    ensures (tx', raised) == CompetitionStep(start, tx, comp, env)
  {
    if !comp.JObj? {
      return tx, true;
    }
    if !Truthy(Get(comp, "id")) {
      return tx, false;
    }
    var cols := CompetitionColumns(comp);
    if cols.None? {
      return tx, true;
    }
    if tx.aborted {
      return Txn(start, false), false;
    }
    var (k, w1) := UpsertInto(start, tx.w, CompetitionDim, Upsert(Get(comp, "id"), cols.value), env);
    tx', raised := Txn(w1, false), false;
    if k.Some? && k.value != 0 {
      var dates, aborted;
      dates, raised, aborted := EnsureDateLoop(w1.dates, comp, env, false);
      tx' := Txn(w1.(dates := dates), aborted);
    }
  }

  /** `transform_competitions(conn)`. */
  method TransformCompetitions(w: Warehouse, payloads: seq<Json>, env: Env) returns (w': Warehouse)
    requires w.Valid()
    ensures w' == Committed(w, CompetitionPayloads(w, Txn(w, false), payloads, env))
  {
    var tx := Txn(w, false);
    ghost var final := CompetitionPayloads(w, tx, payloads, env);
    assert payloads[0..] == payloads;
    for i := 0 to |payloads|
      invariant tx.w.Valid() && CompetitionPayloads(w, tx, payloads[i..], env) == final
    {
      assert payloads[i..][1..] == payloads[i + 1..];
      var comps := CompetitionsOf(payloads[i], env.parseJson);
      if comps.Some? {
        var cs := comps.value;
        ghost var tx0 := tx;
        var j := 0;
        while j < |cs|
          invariant j <= |cs| && tx.w.Valid()
          invariant CompetitionsRun(w, tx0, cs, env) == CompetitionsRun(w, tx, cs[j..], env)
        {
          assert cs[j..][1..] == cs[j + 1..];
          var raised;
          tx, raised := ProcessCompetition(w, tx, cs[j], env);
          if raised {
            break;
          }
          j := j + 1;
        }
        if j == |cs| {
          assert cs[j..] == [];
        }
      }
    }
    w' := if tx.aborted then w else tx.w;
  }

  // ---------------------------------------------------------------------------
  // extract_disciplines_from_scoreboard
  // ---------------------------------------------------------------------------

  /** The `(disc_id, comp_id)` pair a discipline is known by in `disciplines_seen`. */
  type DiscKey = (int, int)

  /** The upsert of lines 262-273: the discipline id is the natural key, the name and competition are its columns. */
  function DisciplineCandidate(name: Json, disc: int, comp: int): Candidate<DiscKey>
  {
    Candidate((disc, comp), Upsert(JInt(disc), map["name" := name, "competition_id_nat" := JInt(comp)]))
  }

  /** Whether athlete `a` carries a pair with two truthy ids that `disciplines_seen` does not hold yet. */
  predicate Fresh(seen: set<DiscKey>, a: Json)
    requires a.JObj?
  {
    var d := SafeInt(Get(a, "disc_id"));
    var c := SafeInt(Get(a, "comp_id"));
    TruthyInt(d) && TruthyInt(c) && (d.value, c.value) !in seen
  }

  /** The candidate a fresh athlete yields. */
  function FreshCandidate(seen: set<DiscKey>, name: Json, a: Json): (c: Candidate<DiscKey>)
    requires a.JObj? && Fresh(seen, a)
    ensures c.key !in seen && c.key.0 != 0 && c.key.1 != 0 && c == DisciplineCandidate(name, c.key.0, c.key.1)
  {
    DisciplineCandidate(name, SafeInt(Get(a, "disc_id")).value, SafeInt(Get(a, "comp_id")).value)
  }

  /**
   * Lines 257-277 for one discipline's athletes: the first fresh athlete is
   * taken, and the loop breaks; an athlete that is not a dict raises before
   * that.
   */
  function DisciplinePick(seen: set<DiscKey>, name: Json, xs: seq<Json>): Found<DiscKey>
    decreases |xs|
  {
    if xs == [] then Skip
    else if !xs[0].JObj? then Raises
    else if Fresh(seen, xs[0]) then Take(FreshCandidate(seen, name, xs[0]))
    else DisciplinePick(seen, name, xs[1..])
  }

  /** The athletes before position `i` are all dicts that are not fresh. */
  predicate NoneFreshBefore(seen: set<DiscKey>, xs: seq<Json>, i: nat)
    requires i <= |xs|
  {
    forall j :: 0 <= j < i ==> xs[j].JObj? && !Fresh(seen, xs[j])
  }

  lemma NoneFreshBeforeTail(seen: set<DiscKey>, xs: seq<Json>, i: nat)
    requires 0 < i <= |xs| && NoneFreshBefore(seen, xs, i)
    ensures xs[0].JObj? && !Fresh(seen, xs[0]) && NoneFreshBefore(seen, xs[1..], i - 1)
  {
    forall j | 0 <= j < i - 1 ensures xs[1..][j].JObj? && !Fresh(seen, xs[1..][j]) {
      assert xs[1..][j] == xs[j + 1];
    }
  }

  /** The first fresh athlete is the one taken. */
  lemma {:induction false} DisciplinePickTakes(seen: set<DiscKey>, name: Json, xs: seq<Json>, i: nat)
    requires i < |xs| && xs[i].JObj? && Fresh(seen, xs[i]) && NoneFreshBefore(seen, xs, i)
    ensures DisciplinePick(seen, name, xs) == Take(FreshCandidate(seen, name, xs[i]))
    decreases i
  {
    if i > 0 {
      NoneFreshBeforeTail(seen, xs, i);
      assert xs[1..][i - 1] == xs[i];
      DisciplinePickTakes(seen, name, xs[1..], i - 1);
    }
  }

  /** A non-dict athlete before any fresh one raises. */
  lemma {:induction false} DisciplinePickRaises(seen: set<DiscKey>, name: Json, xs: seq<Json>, i: nat)
    requires i < |xs| && !xs[i].JObj? && NoneFreshBefore(seen, xs, i)
    ensures DisciplinePick(seen, name, xs) == Raises
    decreases i
  {
    if i > 0 {
      NoneFreshBeforeTail(seen, xs, i);
      assert xs[1..][i - 1] == xs[i];
      DisciplinePickRaises(seen, name, xs[1..], i - 1);
    }
  }

  /** With no fresh athlete and no non-dict, the discipline issues nothing and the scan goes on. */
  lemma {:induction false} DisciplinePickSkips(seen: set<DiscKey>, name: Json, xs: seq<Json>)
    requires NoneFreshBefore(seen, xs, |xs|)
    ensures DisciplinePick(seen, name, xs) == Skip
    decreases |xs|
  {
    if xs != [] {
      NoneFreshBeforeTail(seen, xs, |xs|);
      DisciplinePickSkips(seen, name, xs[1..]);
    }
  }

  /** A taken pair is unseen, has two non-zero ids, and is upserted under its discipline id. */
  lemma {:induction false} DisciplinePickTaken(seen: set<DiscKey>, name: Json, xs: seq<Json>)
    ensures var f := DisciplinePick(seen, name, xs);
            f.Take? ==> f.c.key !in seen && f.c.key.0 != 0 && f.c.key.1 != 0 && f.c.u.id == JInt(f.c.key.0) &&
                        f.c.u.data == map["name" := name, "competition_id_nat" := JInt(f.c.key.1)]
    decreases |xs|
  {
    if xs != [] && xs[0].JObj? && !Fresh(seen, xs[0]) {
      DisciplinePickTaken(seen, name, xs[1..]);
    }
  }

  /** What the discipline loop has done: the warehouse, `disciplines_seen`, and the upserts it issued. */
  datatype Scan = Scan(w: Warehouse, seen: set<DiscKey>, log: seq<Candidate<DiscKey>>)

  /** Lines 260-273: the pair is added to the set and upserted. */
  function Take1(start: Warehouse, s: Scan, c: Candidate<DiscKey>, env: Env): (r: Scan)
    requires start.Valid() && s.w.Valid()
    ensures r.w.Valid() && r.seen == s.seen + {c.key} && r.log == s.log + [c]
  {
    Scan(UpsertInto(start, s.w, DisciplineDim, c.u, env).1, s.seen + {c.key}, s.log + [c])
  }

  /**
   * Lines 253-277 for one discipline: the upsert it issues, if any, and
   * whether it raised; at most one upsert, and the log only grows.
   */
  function DisciplineStep(start: Warehouse, s: Scan, d: Json, env: Env): (r: (Scan, bool))
    requires start.Valid() && s.w.Valid()
    ensures r.0.w.Valid()
    ensures |s.log| <= |r.0.log| <= |s.log| + 1 && r.0.log[..|s.log|] == s.log
  {
    if !d.JObj? then (s, true)
    else
      var name := GetOr(d, "name", JStr("Unknown"));
      match TransformFacts.Iterate(GetOr(d, "athletes", JArr([])))
      case None => (s, true)
      case Some(xs) =>
        match DisciplinePick(s.seen, name, xs)
        case Raises => (s, true)
        case Skip => (s, false)
        case Take(c) =>
          var s1 := Take1(start, s, c, env);
          assert s1.log[..|s.log|] == s.log;
          (s1, false)
  }

  /** Lines 252-277 for one team's disciplines, and whether they raised: at most one upsert per discipline. */
  function DisciplinesRun(start: Warehouse, s: Scan, ds: seq<Json>, env: Env): (r: (Scan, bool))
    requires start.Valid() && s.w.Valid()
    ensures r.0.w.Valid()
    ensures |s.log| <= |r.0.log| <= |s.log| + |ds| && r.0.log[..|s.log|] == s.log
    decreases |ds|
  {
    if ds == [] then (s, false)
    else
      var r1 := DisciplineStep(start, s, ds[0], env);
      if r1.1 then r1
      else
        var r2 := DisciplinesRun(start, r1.0, ds[1..], env);
        assert r2.0.log[..|s.log|] == r2.0.log[..|r1.0.log|][..|s.log|];
        r2
  }

  /** Lines 250-277: the teams of one payload, up to an exception. */
  function TeamsRun(start: Warehouse, s: Scan, ts: seq<Json>, env: Env): (r: (Scan, bool))
    requires start.Valid() && s.w.Valid()
    ensures r.0.w.Valid()
    ensures |s.log| <= |r.0.log| && r.0.log[..|s.log|] == s.log
    decreases |ts|
  {
    if ts == [] then (s, false)
    else if !ts[0].JObj? then (s, true)
    else match TransformFacts.Iterate(GetOr(ts[0], "disciplines", JArr([])))
      case None => (s, true)
      case Some(ds) =>
        var r1 := DisciplinesRun(start, s, ds, env);
        if r1.1 then r1
        else
          var r2 := TeamsRun(start, r1.0, ts[1..], env);
          assert r2.0.log[..|s.log|] == r2.0.log[..|r1.0.log|][..|s.log|];
          r2
  }

  /** `data.get('teams', [])` of one decoded payload, iterated; None when decoding or that raises. */
  function PayloadTeams(payload: Json, parseJson: string -> Option<Json>): Option<seq<Json>>
  {
    var data := Decoded(payload, parseJson);
    if data.None? || !data.value.JObj? then None
    else TransformFacts.Iterate(GetOr(data.value, "teams", JArr([])))
  }

  /** Lines 241-280: every scoreboard payload, each up to its own exception, sharing one `disciplines_seen`. */
  function DisciplinePayloads(start: Warehouse, s: Scan, payloads: seq<Json>, env: Env): (r: Scan)
    requires start.Valid() && s.w.Valid()
    ensures r.w.Valid()
    decreases |payloads|
  {
    if payloads == [] then s
    else
      var ts := PayloadTeams(payloads[0], env.parseJson);
      DisciplinePayloads(start, if ts.None? then s else TeamsRun(start, s, ts.value, env).0, payloads[1..], env)
  }

  /**
   * The log repeats no pair, the set holds exactly the logged pairs, and
   * each pair has two non-zero ids with the discipline id as natural key.
   */
  predicate KeyedLog(log: seq<Candidate<DiscKey>>, seen: set<DiscKey>)
  {
    DistinctKeys(log) && CandidateKeys(log) == seen &&
    forall i :: 0 <= i < |log| ==> log[i].key.0 != 0 && log[i].key.1 != 0 && log[i].u.id == JInt(log[i].key.0)
  }

  /** What the loop keeps: besides a keyed log, the warehouse is the logged upserts issued from `w0`. */
  predicate Logged(start: Warehouse, w0: Warehouse, s: Scan, env: Env)
    requires start.Valid() && w0.Valid()
  {
    s.w == ApplyAll(start, w0, DisciplineDim, s.log, env) && KeyedLog(s.log, s.seen)
  }

  lemma KeyedLogAppend(log: seq<Candidate<DiscKey>>, seen: set<DiscKey>, c: Candidate<DiscKey>)
    requires KeyedLog(log, seen)
    requires c.key !in seen && c.key.0 != 0 && c.key.1 != 0 && c.u.id == JInt(c.key.0)
    ensures KeyedLog(log + [c], seen + {c.key})
  {
    var r := log + [c];
    CandidateKeysAppend(log, [c]);
    assert [c][0] == c;
    assert CandidateKeys([c]) == {c.key};
    forall i, j | 0 <= i < j < |r| ensures r[i].key != r[j].key {
      assert r[i] == log[i];
      if j < |log| {
        assert r[j] == log[j];
      } else {
        assert r[j] == c;
        assert r[i].key in CandidateKeys(log);
      }
    }
    forall i | 0 <= i < |r| ensures r[i].key.0 != 0 && r[i].key.1 != 0 && r[i].u.id == JInt(r[i].key.0) {
      if i < |log| {
        assert r[i] == log[i];
      }
    }
  }

  lemma TakeLogged(start: Warehouse, w0: Warehouse, s: Scan, c: Candidate<DiscKey>, env: Env)
    requires start.Valid() && w0.Valid() && s.w.Valid() && Logged(start, w0, s, env)
    requires c.key !in s.seen && c.key.0 != 0 && c.key.1 != 0 && c.u.id == JInt(c.key.0)
    ensures Logged(start, w0, Take1(start, s, c, env), env)
  {
    KeyedLogAppend(s.log, s.seen, c);
    ApplyAllAppend(start, w0, DisciplineDim, s.log, [c], env);
  }

  lemma DisciplineStepLogged(start: Warehouse, w0: Warehouse, s: Scan, d: Json, env: Env)
    requires start.Valid() && w0.Valid() && s.w.Valid() && Logged(start, w0, s, env)
    ensures Logged(start, w0, DisciplineStep(start, s, d, env).0, env)
  {
    var found := if d.JObj? then
                   match TransformFacts.Iterate(GetOr(d, "athletes", JArr([])))
                   case None => Raises
                   case Some(xs) => DisciplinePick(s.seen, GetOr(d, "name", JStr("Unknown")), xs)
                 else Raises;
    if found.Take? {
      var c := found.c;
      assert DisciplineStep(start, s, d, env).0 == Take1(start, s, c, env);
      assert c.key !in s.seen && c.key.0 != 0 && c.key.1 != 0 && c.u.id == JInt(c.key.0) by {
        DisciplinePickTaken(s.seen, GetOr(d, "name", JStr("Unknown")), TransformFacts.Iterate(GetOr(d, "athletes", JArr([]))).value);
      }
      TakeLogged(start, w0, s, c, env);
    } else {
      assert DisciplineStep(start, s, d, env).0 == s;
    }
  }

  lemma {:induction false} DisciplinesRunLogged(start: Warehouse, w0: Warehouse, s: Scan, ds: seq<Json>, env: Env)
    requires start.Valid() && w0.Valid() && s.w.Valid() && Logged(start, w0, s, env)
    ensures Logged(start, w0, DisciplinesRun(start, s, ds, env).0, env)
    decreases |ds|
  {
    if ds != [] {
      DisciplineStepLogged(start, w0, s, ds[0], env);
      var r1 := DisciplineStep(start, s, ds[0], env);
      if r1.1 {
        assert DisciplinesRun(start, s, ds, env) == r1;
      } else {
        DisciplinesRunLogged(start, w0, r1.0, ds[1..], env);
        assert DisciplinesRun(start, s, ds, env) == DisciplinesRun(start, r1.0, ds[1..], env);
      }
    }
  }

  lemma {:induction false} TeamsRunLogged(start: Warehouse, w0: Warehouse, s: Scan, ts: seq<Json>, env: Env)
    requires start.Valid() && w0.Valid() && s.w.Valid() && Logged(start, w0, s, env)
    ensures Logged(start, w0, TeamsRun(start, s, ts, env).0, env)
    decreases |ts|
  {
    var ds := if ts != [] && ts[0].JObj? then TransformFacts.Iterate(GetOr(ts[0], "disciplines", JArr([]))) else None;
    if ds.None? {
      assert TeamsRun(start, s, ts, env).0 == s;
    } else {
      DisciplinesRunLogged(start, w0, s, ds.value, env);
      var r1 := DisciplinesRun(start, s, ds.value, env);
      if r1.1 {
        assert TeamsRun(start, s, ts, env) == r1;
      } else {
        TeamsRunLogged(start, w0, r1.0, ts[1..], env);
        assert TeamsRun(start, s, ts, env) == TeamsRun(start, r1.0, ts[1..], env);
      }
    }
  }

  lemma {:induction false} DisciplinePayloadsLogged(start: Warehouse, w0: Warehouse, s: Scan, payloads: seq<Json>, env: Env)
    requires start.Valid() && w0.Valid() && s.w.Valid() && Logged(start, w0, s, env)
    ensures Logged(start, w0, DisciplinePayloads(start, s, payloads, env), env)
    decreases |payloads|
  {
    if payloads != [] {
      var ts := PayloadTeams(payloads[0], env.parseJson);
      var s1 := if ts.None? then s else TeamsRun(start, s, ts.value, env).0;
      if ts.Some? {
        TeamsRunLogged(start, w0, s, ts.value, env);
      }
      DisciplinePayloadsLogged(start, w0, s1, payloads[1..], env);
      assert DisciplinePayloads(start, s, payloads, env) == DisciplinePayloads(start, s1, payloads[1..], env);
    }
  }

  /**
   * `extract_disciplines_from_scoreboard` never upserts a pair twice, and the
   * discipline table is what its upserts leave, each keyed by a non-zero
   * discipline id with a non-zero competition id.
   */
  lemma DisciplinesUpsertedOnce(w: Warehouse, payloads: seq<Json>, env: Env)
    requires w.Valid()
    ensures var r := DisciplinePayloads(w, Scan(w, {}, []), payloads, env);
            DistinctKeys(r.log) && r.w == ApplyAll(w, w, DisciplineDim, r.log, env) && r.seen == CandidateKeys(r.log) &&
            forall i :: 0 <= i < |r.log| ==> r.log[i].key.0 != 0 && r.log[i].key.1 != 0
  {
    assert CandidateKeys<DiscKey>([]) == {};
    DisciplinePayloadsLogged(w, w, Scan(w, {}, []), payloads, env);
  }

  /** Lines 257-277. */
  method PickLoop(seen: set<DiscKey>, name: Json, xs: seq<Json>) returns (found: Found<DiscKey>)
    ensures found == DisciplinePick(seen, name, xs)
  {
    var j := 0;
    while j < |xs|
      invariant j <= |xs| && DisciplinePick(seen, name, xs[j..]) == DisciplinePick(seen, name, xs)
    {
      assert xs[j..][1..] == xs[j + 1..];
      var a := xs[j];
      if !a.JObj? {
        return Raises;
      }
      if Fresh(seen, a) {
        return Take(FreshCandidate(seen, name, a));
      }
      j := j + 1;
    }
    assert xs[j..] == [];
    return Skip;
  }

  /** Lines 253-277: one discipline. */
  method VisitDiscipline(start: Warehouse, s: Scan, d: Json, env: Env) returns (s': Scan, raised: bool)
    requires start.Valid() && s.w.Valid()
    ensures (s', raised) == DisciplineStep(start, s, d, env)
  {
    if !d.JObj? {
      return s, true;
    }
    var name := GetOr(d, "name", JStr("Unknown"));
    var athletes := TransformFacts.Iterate(GetOr(d, "athletes", JArr([])));
    if athletes.None? {
      return s, true;
    }
    var found := PickLoop(s.seen, name, athletes.value);
    if found.Raises? {
      return s, true;
    }
    s', raised := s, false;
    if found.Take? {
      var (_, w1) := UpsertInto(start, s.w, DisciplineDim, found.c.u, env);
      s' := Scan(w1, s.seen + {found.c.key}, s.log + [found.c]);
    }
  }

  /** Lines 252-277: the disciplines of one team. */
  method DisciplineLoop(start: Warehouse, s: Scan, ds: seq<Json>, env: Env) returns (s': Scan, raised: bool)
    requires start.Valid() && s.w.Valid()
    ensures (s', raised) == DisciplinesRun(start, s, ds, env)
  {
    s' := s;
    var j := 0;
    while j < |ds|
      invariant j <= |ds| && s'.w.Valid() && DisciplinesRun(start, s', ds[j..], env) == DisciplinesRun(start, s, ds, env)
    {
      assert ds[j..][1..] == ds[j + 1..];
      s', raised := VisitDiscipline(start, s', ds[j], env);
      if raised {
        return;
      }
      j := j + 1;
    }
    assert ds[j..] == [];
    raised := false;
  }

  /** Lines 250-277: the teams of one payload. */
  method TeamLoop(start: Warehouse, s: Scan, ts: seq<Json>, env: Env) returns (s': Scan, raised: bool)
    requires start.Valid() && s.w.Valid()
    ensures (s', raised) == TeamsRun(start, s, ts, env)
  {
    s' := s;
    var j := 0;
    while j < |ts|
      invariant j <= |ts| && s'.w.Valid() && TeamsRun(start, s', ts[j..], env) == TeamsRun(start, s, ts, env)
    {
      assert ts[j..][1..] == ts[j + 1..];
      if !ts[j].JObj? {
        return s', true;
      }
      var ds := TransformFacts.Iterate(GetOr(ts[j], "disciplines", JArr([])));
      if ds.None? {
        return s', true;
      }
      s', raised := DisciplineLoop(start, s', ds.value, env);
      if raised {
        return;
      }
      j := j + 1;
    }
    assert ts[j..] == [];
    raised := false;
  }

  /** `extract_disciplines_from_scoreboard(conn)`: the discipline table and the upserts issued, in order. */
  method TransformDisciplines(w: Warehouse, payloads: seq<Json>, env: Env) returns (w': Warehouse, upserted: seq<Candidate<DiscKey>>)
    requires w.Valid()
    ensures var r := DisciplinePayloads(w, Scan(w, {}, []), payloads, env); w' == r.w && upserted == r.log
  {
    var s := Scan(w, {}, []);
    ghost var final := DisciplinePayloads(w, s, payloads, env);
    assert payloads[0..] == payloads;
    for i := 0 to |payloads|
      invariant s.w.Valid() && DisciplinePayloads(w, s, payloads[i..], env) == final
    {
      assert payloads[i..][1..] == payloads[i + 1..];
      var ts := PayloadTeams(payloads[i], env.parseJson);
      if ts.Some? {
        var raised;
        s, raised := TeamLoop(w, s, ts.value, env);
      }
    }
    assert payloads[|payloads|..] == [];
    w', upserted := s.w, s.log;
  }

  // ---------------------------------------------------------------------------
  // extract_athletes_from_scoreboard
  // ---------------------------------------------------------------------------

  /** The columns of `dim_athlete` copied from the athlete as they are (lines 316-327). */
  const CopiedAthleteFields: seq<string> :=
    ["fname", "lname", "gender", "bdate", "address", "city", "zip", "phone", "email", "email2"]

  /** The `dim_data` of an athlete (lines 315-327). */
  function AthleteColumns(a: Json): map<string, Json>
    requires a.JObj?
  {
    (map k | k in CopiedAthleteFields :: Get(a, k))["state_id_nat" := IntValue(SafeInt(Get(a, "state_id")))]
  }

  /** Lines 310-313 for one athlete: a non-dict raises; a falsy `safe_int(ath_id)` is skipped. */
  function AthleteUpsert(a: Json): Found<int>
  {
    if !a.JObj? then Raises
    else
      var id := SafeInt(Get(a, "ath_id"));
      if !TruthyInt(id) then Skip else Take(Candidate(id.value, Upsert(JInt(id.value), AthleteColumns(a))))
  }

  /** The athletes a payload's loops reach, up to the first exception. */
  function AthleteUpserts(xs: seq<Json>): seq<Candidate<int>>
    decreases |xs|
  {
    if xs == [] then []
    else match AthleteUpsert(xs[0])
      case Raises => []
      case Skip => AthleteUpserts(xs[1..])
      case Take(c) => [c] + AthleteUpserts(xs[1..])
  }

  /** Every athlete `extract_athletes_from_scoreboard` considers, in loop order. */
  function AthleteCandidates(payloads: seq<Json>, parseJson: string -> Option<Json>): seq<Candidate<int>>
    decreases |payloads|
  {
    if payloads == [] then []
    else AthleteUpserts(TransformFacts.PayloadAthletes(payloads[0], parseJson).athletes) + AthleteCandidates(payloads[1..], parseJson)
  }

  /** Every athlete candidate is keyed by a non-zero id, which is also its natural key, and has eleven columns. */
  lemma {:induction false} AthleteUpsertsKeyed(xs: seq<Json>)
    ensures forall c :: c in AthleteUpserts(xs) ==> c.key != 0 && c.u.id == JInt(c.key) && "ath_id_nat" !in c.u.data
    decreases |xs|
  {
    if xs != [] {
      AthleteUpsertsKeyed(xs[1..]);
    }
  }

  /** An athlete that is not a dict ends its payload: none of the athletes after it is upserted. */
  lemma {:induction false} AthleteRaiseEndsPayload(xs: seq<Json>, k: nat)
    requires k < |xs| && !xs[k].JObj?
    ensures AthleteUpserts(xs) == AthleteUpserts(xs[..k])
    decreases k
  {
    if k == 0 {
      assert xs[..0] == [];
    } else {
      AthleteRaiseEndsPayload(xs[1..], k - 1);
      assert xs[1..][..k - 1] == xs[..k][1..];
    }
  }

  /** The athlete upserts repeat no id, and every id offered is upserted once. */
  lemma AthletesUpsertedOnce(payloads: seq<Json>, parseJson: string -> Option<Json>)
    ensures var cs := AthleteCandidates(payloads, parseJson);
            DistinctKeys(FirstSeen({}, cs)) && CandidateKeys(FirstSeen({}, cs)) == CandidateKeys(cs)
  {
    FirstSeenKeys({}, AthleteCandidates(payloads, parseJson));
  }

  /** Lines 308-332: the athletes of one payload, up to an exception. */
  method AthleteLoop(start: Warehouse, seen: set<int>, w: Warehouse, log: seq<Candidate<int>>, xs: seq<Json>,
                     ghost later: seq<Candidate<int>>, ghost total: seq<Candidate<int>>, ghost final: Warehouse, env: Env)
    returns (seen': set<int>, w': Warehouse, log': seq<Candidate<int>>)
    requires start.Valid() && w.Valid()
    requires Pending(start, AthleteDim, seen, w, log, AthleteUpserts(xs) + later, total, final, env)
    ensures w'.Valid() && Pending(start, AthleteDim, seen', w', log', later, total, final, env)
  {
    seen', w', log' := seen, w, log;
    var j := 0;
    while j < |xs|
      invariant j <= |xs| && w'.Valid()
      invariant Pending(start, AthleteDim, seen', w', log', AthleteUpserts(xs[j..]) + later, total, final, env)
    {
      assert xs[j..][1..] == xs[j + 1..];
      var found := AthleteUpsert(xs[j]);
      if found.Raises? {
        break;
      }
      if found.Take? {
        SeqAssoc([found.c], AthleteUpserts(xs[j + 1..]), later);
        seen', w', log' := Guard(start, AthleteDim, seen', w', log', found.c, AthleteUpserts(xs[j + 1..]) + later,
                                 total, final, env);
      }
      j := j + 1;
    }
    if j == |xs| {
      assert AthleteUpserts(xs[j..]) == [];
    }
    assert [] + later == later;
  }

  /**
   * `extract_athletes_from_scoreboard(conn)`: the guarded upserts it issues
   * are the first occurrence of every athlete id, and the athlete table is
   * what they leave.
   */
  method TransformAthletes(w: Warehouse, payloads: seq<Json>, env: Env) returns (w': Warehouse, upserted: seq<Candidate<int>>)
    requires w.Valid()
    ensures upserted == FirstSeen({}, AthleteCandidates(payloads, env.parseJson))
    ensures w' == ApplyAll(w, w, AthleteDim, upserted, env)
  {
    ghost var total := FirstSeen({}, AthleteCandidates(payloads, env.parseJson));
    ghost var final := ApplyAll(w, w, AthleteDim, total, env);
    var seen: set<int> := {};
    w', upserted := w, [];
    assert payloads[0..] == payloads;
    assert [] + total == total;
    for i := 0 to |payloads|
      invariant w'.Valid()
      invariant Pending(w, AthleteDim, seen, w', upserted, AthleteCandidates(payloads[i..], env.parseJson), total, final, env)
    {
      assert payloads[i..][1..] == payloads[i + 1..];
      var xs := TransformFacts.PayloadAthletes(payloads[i], env.parseJson).athletes;
      seen, w', upserted := AthleteLoop(w, seen, w', upserted, xs, AthleteCandidates(payloads[i + 1..], env.parseJson),
                                        total, final, env);
    }
    assert payloads[|payloads|..] == [];
    assert FirstSeen(seen, []) == [];
    assert upserted + [] == upserted;
  }

  // ---------------------------------------------------------------------------
  // main
  // ---------------------------------------------------------------------------

  /** The payloads of the raw tables the transforms read. */
  datatype RawTables = RawTables(competitions: seq<Json>, teams: seq<Json>, schedules: seq<Json>, scoreboards: seq<Json>)

  /** Every table but `t` is the same in `a` as in `b`. */
  predicate Untouched(a: Warehouse, b: Warehouse, t: Table)
  {
    forall o :: o != t ==> a.Of(o) == b.Of(o)
  }

  lemma {:induction false} ApplyAllUntouched<K>(start: Warehouse, w: Warehouse, t: Table, cs: seq<Candidate<K>>, env: Env)
    requires start.Valid() && w.Valid() && Untouched(w, start, t) && w.dates == start.dates
    ensures Untouched(ApplyAll(start, w, t, cs, env), start, t) && ApplyAll(start, w, t, cs, env).dates == start.dates
    decreases |cs|
  {
    if cs != [] {
      ApplyAllUntouched(start, UpsertInto(start, w, t, cs[0].u, env).1, t, cs[1..], env);
    }
  }

  lemma {:induction false} CompetitionsRunUntouched(start: Warehouse, tx: Txn, comps: seq<Json>, env: Env)
    requires start.Valid() && tx.w.Valid() && Untouched(tx.w, start, CompetitionDim)
    ensures Untouched(CompetitionsRun(start, tx, comps, env).w, start, CompetitionDim)
    decreases |comps|
  {
    if comps != [] {
      var (tx1, raised) := CompetitionStep(start, tx, comps[0], env);
      CompetitionStepUntouched(start, tx, comps[0], env);
      if raised {
        assert CompetitionsRun(start, tx, comps, env) == tx1;
      } else {
        CompetitionsRunUntouched(start, tx1, comps[1..], env);
        assert CompetitionsRun(start, tx, comps, env) == CompetitionsRun(start, tx1, comps[1..], env);
      }
    }
  }

  lemma CompetitionStepUntouched(start: Warehouse, tx: Txn, comp: Json, env: Env)
    requires start.Valid() && tx.w.Valid() && Untouched(tx.w, start, CompetitionDim)
    ensures Untouched(CompetitionStep(start, tx, comp, env).0.w, start, CompetitionDim)
  {
  }

  lemma {:induction false} CompetitionPayloadsUntouched(start: Warehouse, tx: Txn, payloads: seq<Json>, env: Env)
    requires start.Valid() && tx.w.Valid() && Untouched(tx.w, start, CompetitionDim)
    ensures Untouched(CompetitionPayloads(start, tx, payloads, env).w, start, CompetitionDim)
    decreases |payloads|
  {
    if payloads != [] {
      var comps := CompetitionsOf(payloads[0], env.parseJson);
      if comps.Some? {
        CompetitionsRunUntouched(start, tx, comps.value, env);
      }
      CompetitionPayloadsUntouched(start, if comps.None? then tx else CompetitionsRun(start, tx, comps.value, env),
                                   payloads[1..], env);
    }
  }

  /** `transform_ranges`, committed. */
  function RangesStage(w: Warehouse, raw: RawTables, env: Env): (r: Warehouse)
    requires w.Valid()
    ensures r.Valid() && Untouched(r, w, RangeDim) && r.dates == w.dates
  {
    var cs := FirstSeen({}, RangeCandidates(raw.competitions, raw.teams, env.parseJson));
    ApplyAllUntouched(w, w, RangeDim, cs, env);
    ApplyAll(w, w, RangeDim, cs, env)
  }

  /** `transform_competitions`, committed: the only transform that writes date rows. */
  function CompetitionsStage(w: Warehouse, raw: RawTables, env: Env): (r: Warehouse)
    requires w.Valid()
    ensures r.Valid() && Untouched(r, w, CompetitionDim)
  {
    CompetitionPayloadsUntouched(w, Txn(w, false), raw.competitions, env);
    Committed(w, CompetitionPayloads(w, Txn(w, false), raw.competitions, env))
  }

  function TeamsStage(w: Warehouse, raw: RawTables, env: Env): (r: Warehouse)
    requires w.Valid()
    ensures r.Valid() && Untouched(r, w, TeamDim) && r.dates == w.dates
  {
    var cs := TeamUpserts(raw.teams, env.parseJson);
    ApplyAllUntouched(w, w, TeamDim, cs, env);
    ApplyAll(w, w, TeamDim, cs, env)
  }

  function SlotsStage(w: Warehouse, raw: RawTables, env: Env): (r: Warehouse)
    requires w.Valid()
    ensures r.Valid() && Untouched(r, w, SlotDim) && r.dates == w.dates
  {
    var cs := PayloadsSlotUpserts(raw.schedules, env.parseJson);
    ApplyAllUntouched(w, w, SlotDim, cs, env);
    ApplyAll(w, w, SlotDim, cs, env)
  }

  function DisciplinesStage(w: Warehouse, raw: RawTables, env: Env): (r: Warehouse)
    requires w.Valid()
    ensures r.Valid() && Untouched(r, w, DisciplineDim) && r.dates == w.dates
  {
    DisciplinesUpsertedOnce(w, raw.scoreboards, env);
    ApplyAllUntouched(w, w, DisciplineDim, DisciplinePayloads(w, Scan(w, {}, []), raw.scoreboards, env).log, env);
    DisciplinePayloads(w, Scan(w, {}, []), raw.scoreboards, env).w
  }

  function AthletesStage(w: Warehouse, raw: RawTables, env: Env): (r: Warehouse)
    requires w.Valid()
    ensures r.Valid() && Untouched(r, w, AthleteDim) && r.dates == w.dates
  {
    var cs := FirstSeen({}, AthleteCandidates(raw.scoreboards, env.parseJson));
    ApplyAllUntouched(w, w, AthleteDim, cs, env);
    ApplyAll(w, w, AthleteDim, cs, env)
  }

  /** `main()`'s transforms in the order of lines 353-358, each on the tables the previous one committed. */
  function Dimensions(w: Warehouse, raw: RawTables, env: Env): (r: Warehouse)
    requires w.Valid()
    ensures r.Valid()
  {
    var w1 := RangesStage(w, raw, env);
    var w2 := CompetitionsStage(w1, raw, env);
    var w3 := TeamsStage(w2, raw, env);
    var w4 := SlotsStage(w3, raw, env);
    AthletesStage(DisciplinesStage(w4, raw, env), raw, env)
  }

  /** Tables left alone by the later of a chain of transforms keep what their own transform wrote. */
  lemma OwnTablesChain(w1: Warehouse, w2: Warehouse, w3: Warehouse, w4: Warehouse, w5: Warehouse, w6: Warehouse)
    requires Untouched(w2, w1, CompetitionDim) && Untouched(w3, w2, TeamDim) && Untouched(w4, w3, SlotDim)
    requires Untouched(w5, w4, DisciplineDim) && Untouched(w6, w5, AthleteDim)
    requires w3.dates == w2.dates && w4.dates == w3.dates && w5.dates == w4.dates && w6.dates == w5.dates
    ensures w6.range == w1.range && w6.competition == w2.competition && w6.team == w3.team
    ensures w6.slot == w4.slot && w6.discipline == w5.discipline && w6.dates == w2.dates
  {
    assert w6.Of(RangeDim) == w5.Of(RangeDim) == w4.Of(RangeDim) == w3.Of(RangeDim) == w2.Of(RangeDim) == w1.Of(RangeDim);
    assert w6.Of(CompetitionDim) == w5.Of(CompetitionDim) == w4.Of(CompetitionDim) == w3.Of(CompetitionDim) == w2.Of(CompetitionDim);
    assert w6.Of(TeamDim) == w5.Of(TeamDim) == w4.Of(TeamDim) == w3.Of(TeamDim);
    assert w6.Of(SlotDim) == w5.Of(SlotDim) == w4.Of(SlotDim);
    assert w6.Of(DisciplineDim) == w5.Of(DisciplineDim);
  }

  /**
   * Each transform commits before the next begins, so a rollback in a later
   * one never reaches an earlier one's table: every dimension ends as its
   * own transform left it, and the date rows as `transform_competitions`
   * left them.
   */
  lemma DimensionsOwnTables(w: Warehouse, raw: RawTables, env: Env)
    requires w.Valid()
    ensures var w1 := RangesStage(w, raw, env);
            var w2 := CompetitionsStage(w1, raw, env);
            var w3 := TeamsStage(w2, raw, env);
            var w4 := SlotsStage(w3, raw, env);
            var w5 := DisciplinesStage(w4, raw, env);
            var r := Dimensions(w, raw, env);
            r.range == w1.range && r.competition == w2.competition && r.team == w3.team && r.slot == w4.slot &&
            r.discipline == w5.discipline && r.dates == w2.dates
  {
    var w1 := RangesStage(w, raw, env);
    var w2 := CompetitionsStage(w1, raw, env);
    var w3 := TeamsStage(w2, raw, env);
    var w4 := SlotsStage(w3, raw, env);
    var w5 := DisciplinesStage(w4, raw, env);
    OwnTablesChain(w1, w2, w3, w4, w5, AthletesStage(w5, raw, env));
  }

  /** `main()`: the six transforms in dependency order, each on the tables the previous one committed. */
  method TransformAll(w: Warehouse, raw: RawTables, env: Env) returns (w': Warehouse)
    requires w.Valid()
    ensures w' == Dimensions(w, raw, env)
  {
    var upserted;
    w', upserted := TransformRanges(w, raw.competitions, raw.teams, env);
    w' := TransformCompetitions(w', raw.competitions, env);
    w' := TransformTeams(w', raw.teams, env);
    w' := TransformScheduleSlots(w', raw.schedules, env);
    var disciplines;
    w', disciplines := TransformDisciplines(w', raw.scoreboards, env);
    var athletes;
    w', athletes := TransformAthletes(w', raw.scoreboards, env);
  }
}
