/**
 * `scripts/silver/etl_stage_performance.py`: for every entry, group its
 * string rows by stage, keep the valid strings (positive total) sorted by
 * total, keep the four fastest of exactly five, total and pad them, and
 * insert one `fact_stage_performance` row per (entry, stage) unless one is
 * already there.
 *
 * Times are NUMERIC columns turned into floats; they are modelled as
 * integers in thousandths of a second, which keeps every comparison and
 * sum the scripts make exact.
 */
module StagePerformance {
  import opened Wrappers
  import opened StableSort

  /** A row of the per-entry query: `(stage_no, string_no, time_value, penalty_value, total_value)`; None is NULL. */
  datatype StringRow = StringRow(stageNo: int, stringNo: int, time: Option<int>, penalty: Option<int>, total: Option<int>)

  /** One dict of a stage's list; the padding dicts have no `string_no`. */
  datatype Shot = Shot(stringNo: Option<int>, time: int, penalty: int, total: int)

  /** `float(v) if v else 0.0`: NULL and zero both become 0. */
  function Value(v: Option<int>): int
  {
    if v.Some? && v.value != 0 then v.value else 0
  }

  function ShotOf(r: StringRow): Shot
  {
    Shot(Some(r.stringNo), Value(r.time), Value(r.penalty), Value(r.total))
  }

  /** The dict the padding loop appends. */
  const ZeroShot: Shot := Shot(None, 0, 0, 0)

  function Total(s: Shot): int
  {
    s.total
  }

  // ---------------------------------------------------------------------------
  // Grouping by stage
  // ---------------------------------------------------------------------------

  /** The keys of the `stages` dict in insertion order: each stage number where it first appears. */
  function StageOrder(rows: seq<StringRow>): seq<int>
  {
    if rows == [] then []
    else
      var order := StageOrder(rows[..|rows| - 1]);
      if rows[|rows| - 1].stageNo in order then order else order + [rows[|rows| - 1].stageNo]
  }

  /** The list `stages[stage]` ends up holding: the stage's rows in query order. */
  function ShotsOf(rows: seq<StringRow>, stage: int): seq<Shot>
  {
    if rows == [] then []
    else ShotsOf(rows[..|rows| - 1], stage) + (if rows[|rows| - 1].stageNo == stage then [ShotOf(rows[|rows| - 1])] else [])
  }

  /** Every stage appears once in the order, and exactly the stages of the rows appear. */
  lemma {:induction false} StageOrderMeaning(rows: seq<StringRow>)
    ensures forall i, j :: 0 <= i < j < |StageOrder(rows)| ==> StageOrder(rows)[i] != StageOrder(rows)[j]
    ensures forall s :: s in StageOrder(rows) <==> exists k :: 0 <= k < |rows| && rows[k].stageNo == s
  {
    if rows != [] {
      var init := rows[..|rows| - 1];
      StageOrderMeaning(init);
      forall s | s in StageOrder(rows)
        ensures exists k :: 0 <= k < |rows| && rows[k].stageNo == s
      {
        if s in StageOrder(init) {
          var k :| 0 <= k < |init| && init[k].stageNo == s;
          assert rows[k] == init[k];
        } else {
          assert rows[|rows| - 1].stageNo == s;
        }
      }
      forall s | exists k :: 0 <= k < |rows| && rows[k].stageNo == s
        ensures s in StageOrder(rows)
      {
        var k :| 0 <= k < |rows| && rows[k].stageNo == s;
        if k < |init| {
          assert init[k] == rows[k];
        }
      }
    }
  }

  /** A stage's list holds one dict for each of its rows, in order. */
  lemma {:induction false} ShotsOfMeaning(rows: seq<StringRow>, stage: int)
    ensures forall x :: x in ShotsOf(rows, stage) ==> exists k :: 0 <= k < |rows| && rows[k].stageNo == stage && x == ShotOf(rows[k])
    ensures forall k :: 0 <= k < |rows| && rows[k].stageNo == stage ==> ShotOf(rows[k]) in ShotsOf(rows, stage)
  {
    if rows != [] {
      var init := rows[..|rows| - 1];
      ShotsOfMeaning(init, stage);
      forall x | x in ShotsOf(rows, stage)
        ensures exists k :: 0 <= k < |rows| && rows[k].stageNo == stage && x == ShotOf(rows[k])
      {
        if x in ShotsOf(init, stage) {
          var k :| 0 <= k < |init| && init[k].stageNo == stage && x == ShotOf(init[k]);
          assert rows[k] == init[k];
        }
      }
      forall k | 0 <= k < |rows| && rows[k].stageNo == stage
        ensures ShotOf(rows[k]) in ShotsOf(rows, stage)
      {
        if k < |init| {
          assert init[k] == rows[k];
        }
      }
    }
  }

  /** A stage that has not appeared yet has an empty list. */
  lemma {:induction false} ShotsOfAbsent(rows: seq<StringRow>, stage: int)
    requires stage !in StageOrder(rows)
    ensures ShotsOf(rows, stage) == []
  {
    if rows != [] {
      var init := rows[..|rows| - 1];
      assert StageOrder(init) <= StageOrder(rows);
      ShotsOfAbsent(init, stage);
    }
  }

  /** The grouping loop: a new stage gets an empty list, then each row's dict is appended to its stage's list. */
  method GroupStages(rows: seq<StringRow>) returns (order: seq<int>, stages: map<int, seq<Shot>>)
    ensures order == StageOrder(rows)
    ensures forall s :: s in stages <==> s in order
    ensures forall s :: s in stages ==> stages[s] == ShotsOf(rows, s)
  {
    order, stages := [], map[];
    var i := 0;
    while i < |rows|
      invariant i <= |rows|
      invariant order == StageOrder(rows[..i])
      invariant forall s :: s in stages <==> s in order
      invariant forall s :: s in stages ==> stages[s] == ShotsOf(rows[..i], s)
    {
      var r := rows[i];
      assert rows[..i + 1][..i] == rows[..i] && rows[..i + 1][i] == r;
      if r.stageNo !in stages {
        ShotsOfAbsent(rows[..i], r.stageNo);
        stages := stages[r.stageNo := []];
        order := order + [r.stageNo];
      }
      stages := stages[r.stageNo := stages[r.stageNo] + [ShotOf(r)]];
      i := i + 1;
    }
    assert rows[..i] == rows;
  }

  // ---------------------------------------------------------------------------
  // One stage
  // ---------------------------------------------------------------------------

  /** `stage_names`: the stage numbers the script knows. */
  function StageName(n: int): Option<string>
  {
    if n == 1 then Some("GoFast")
    else if n == 2 then Some("Focus")
    else if n == 3 then Some("SpeedTrap")
    else if n == 4 then Some("InOut")
    else None
  }

  /** `[s for s in stage_strings if s['total_value'] > 0]`. */
  function Valid(shots: seq<Shot>): (v: seq<Shot>)
    ensures |v| <= |shots|
  {
    if shots == [] then []
    else Valid(shots[..|shots| - 1]) + (if shots[|shots| - 1].total > 0 then [shots[|shots| - 1]] else [])
  }

  /** The valid strings are exactly the dicts of the stage with a positive total. */
  lemma {:induction false} ValidMeaning(shots: seq<Shot>)
    ensures forall x :: x in Valid(shots) <==> x in shots && x.total > 0
  {
    if shots != [] {
      var init := shots[..|shots| - 1];
      ValidMeaning(init);
      assert forall x :: x in shots <==> x in init || x == shots[|shots| - 1];
    }
  }

  function SumTime(s: seq<Shot>): int
  {
    if s == [] then 0 else SumTime(s[..|s| - 1]) + s[|s| - 1].time
  }

  function SumTotal(s: seq<Shot>): int
  {
    if s == [] then 0 else SumTotal(s[..|s| - 1]) + s[|s| - 1].total
  }

  function SumPenalty(s: seq<Shot>): int
  {
    if s == [] then 0 else SumPenalty(s[..|s| - 1]) + s[|s| - 1].penalty
  }

  /** `while len(fastest_4) < 4: fastest_4.append(zero dict)`. */
  function Padded(s: seq<Shot>): (p: seq<Shot>)
    ensures |p| == if |s| < 4 then 4 else |s|
    ensures p[..|s|] == s && forall k :: |s| <= k < |p| ==> p[k] == ZeroShot
    decreases 4 - |s|
  {
    if |s| < 4 then Padded(s + [ZeroShot]) else s
  }

  /** An entry of the first query; the five keys may be NULL. */
  datatype Entry = Entry(id: int, competition: Option<int>, team: Option<int>, athlete: Option<int>,
                         discipline: Option<int>, slot: Option<int>)

  /** A `fact_stage_performance` row; `strings` are the four `(raw, total, penalties)` column groups. */
  datatype StagePerf = StagePerf(entryId: int, stageKey: int, entry: Entry, totalRaw: int, totalTotal: int,
                                 totalPenalties: int, stringsCount: nat, dropped: Option<int>, strings: seq<Shot>)

  /**
   * The row for the sorted valid strings `valid` of a stage, as the script
   * writes it. With exactly five valid strings the first four are kept
   * and the dropped number is the literal 5. Otherwise `fastest_4` is the
   * same list object as `valid_strings`, so the padding loop lengthens both,
   * and `len(valid_strings)`, read after the loop, is the padded length.
   */
  function RecordAsWritten(e: Entry, key: int, valid: seq<Shot>): StagePerf
  {
    var five := |valid| == 5;
    var kept := if five then valid[..4] else valid;
    var padded := Padded(kept);
    StagePerf(e.id, key, e, SumTime(kept), SumTotal(kept), SumPenalty(kept),
              if five then 5 else |padded|, if five then Some(5) else None, padded[..4])
  }

  /**
   * The row the script evidently means: the dropped number is that of the
   * slowest string, and the count is the number of valid strings.
   */
  function Record(e: Entry, key: int, valid: seq<Shot>): StagePerf
  {
    var five := |valid| == 5;
    var kept := if five then valid[..4] else valid;
    var padded := Padded(kept);
    StagePerf(e.id, key, e, SumTime(kept), SumTotal(kept), SumPenalty(kept),
              |valid|, if five then valid[4].stringNo else None, padded[..4])
  }

  /**
   * What one stage of `stages.items()` inserts, as written: nothing for an
   * unknown stage number, a stage without a key from `get_stage_key`
   * (`stageKeyOf`), or a stage without valid strings.
   */
  function StageResultAsWritten(e: Entry, stageNo: int, shots: seq<Shot>, stageKeyOf: string -> Option<int>): Option<StagePerf>
  {
    match StageName(stageNo)
    case None => None
    case Some(name) =>
      match stageKeyOf(name)
      case None => None
      case Some(key) =>
        var valid := SortBy(Valid(shots), Total);
        if valid == [] then None else Some(RecordAsWritten(e, key, valid))
  }

  /**
   * One stage of the loop as written. The padding loop appends to
   * `fastest`, and also to `valid` while the two names share one list.
   */
  method BuildStageAsWritten(e: Entry, stageNo: int, shots: seq<Shot>, stageKeyOf: string -> Option<int>) returns (row: Option<StagePerf>)
    ensures row == StageResultAsWritten(e, stageNo, shots, stageKeyOf)
  {
    var name := StageName(stageNo);
    if name.None? {
      return None;
    }
    var key := stageKeyOf(name.value);
    if key.None? {
      return None;
    }
    var valid := SortBy(Valid(shots), Total);
    if valid == [] {
      return None;
    }
    ghost var sorted := valid;
    var fastest, dropped, shared;
    if |valid| == 5 {
      fastest, dropped, shared := valid[..4], Some(5), false;
    } else {
      fastest, dropped, shared := valid, None, true;
    }
    var totalRaw, totalTotal, totalPenalties := SumTime(fastest), SumTotal(fastest), SumPenalty(fastest);
    ghost var kept := fastest;
    while |fastest| < 4
      invariant Padded(fastest) == Padded(kept)
      invariant shared ==> valid == fastest
      invariant !shared ==> valid == sorted
      decreases 4 - |fastest|
    {
      fastest := fastest + [ZeroShot];
      if shared {
        valid := valid + [ZeroShot];
      }
    }
    row := Some(StagePerf(e.id, key.value, e, totalRaw, totalTotal, totalPenalties, |valid|, dropped, fastest[..4]));
  }

  /**
   * What one stage inserts as the script evidently means it: the same
   * guards, and the corrected row.
   */
  function StageResult(e: Entry, stageNo: int, shots: seq<Shot>, stageKeyOf: string -> Option<int>): Option<StagePerf>
  {
    match StageName(stageNo)
    case None => None
    case Some(name) =>
      match stageKeyOf(name)
      case None => None
      case Some(key) =>
        var valid := SortBy(Valid(shots), Total);
        if valid == [] then None else Some(Record(e, key, valid))
  }

  /**
   * One stage of the loop, corrected: the count is taken before padding and
   * the dropped number is that of the last sorted string.
   */
  method BuildStage(e: Entry, stageNo: int, shots: seq<Shot>, stageKeyOf: string -> Option<int>) returns (row: Option<StagePerf>)
    ensures row == StageResult(e, stageNo, shots, stageKeyOf)
  {
    var name := StageName(stageNo);
    if name.None? {
      return None;
    }
    var key := stageKeyOf(name.value);
    if key.None? {
      return None;
    }
    var valid := SortBy(Valid(shots), Total);
    if valid == [] {
      return None;
    }
    var fastest, dropped;
    if |valid| == 5 {
      fastest, dropped := valid[..4], valid[4].stringNo;
    } else {
      fastest, dropped := valid, None;
    }
    var totalRaw, totalTotal, totalPenalties := SumTime(fastest), SumTotal(fastest), SumPenalty(fastest);
    ghost var kept := fastest;
    while |fastest| < 4
      invariant Padded(fastest) == Padded(kept)
      decreases 4 - |fastest|
    {
      fastest := fastest + [ZeroShot];
    }
    row := Some(StagePerf(e.id, key.value, e, totalRaw, totalTotal, totalPenalties, |valid|, dropped, fastest[..4]));
  }

  /** The row keeps the four fastest of exactly five valid strings, all of them otherwise, and has four string groups. */
  lemma StageResultShape(e: Entry, stageNo: int, shots: seq<Shot>, stageKeyOf: string -> Option<int>)
    ensures var r := StageResult(e, stageNo, shots, stageKeyOf);
            var valid := SortBy(Valid(shots), Total);
            (r.None? <==> StageName(stageNo).None? || stageKeyOf(StageName(stageNo).value).None? || Valid(shots) == []) &&
            (r.Some? ==>
              var kept := if |valid| == 5 then valid[..4] else valid;
              r.value.entryId == e.id && r.value.stageKey == stageKeyOf(StageName(stageNo).value).value &&
              r.value.stringsCount == |Valid(shots)| && (r.value.dropped.Some? ==> |Valid(shots)| == 5) &&
              |r.value.strings| == 4 &&
              r.value.totalRaw == SumTime(kept) && r.value.totalTotal == SumTotal(kept) && r.value.totalPenalties == SumPenalty(kept) &&
              (forall k :: 0 <= k < |kept| && k < 4 ==> r.value.strings[k] == kept[k]) &&
              (forall k :: |kept| <= k < 4 ==> r.value.strings[k] == ZeroShot))
  {
    var valid := SortBy(Valid(shots), Total);
    assert |valid| == |Valid(shots)|;
  }

  /**
   * The row as written and the corrected row are inserted in the same
   * cases, and differ at most in the count and the dropped number.
   */
  lemma AsWrittenDiffersInCountOnly(e: Entry, stageNo: int, shots: seq<Shot>, stageKeyOf: string -> Option<int>)
    ensures var w := StageResultAsWritten(e, stageNo, shots, stageKeyOf);
            var r := StageResult(e, stageNo, shots, stageKeyOf);
            (w.Some? <==> r.Some?) &&
            (w.Some? ==> w.value.(stringsCount := r.value.stringsCount, dropped := r.value.dropped) == r.value)
  {
  }

  /** Of five valid strings, the four kept are in ascending total order and the one left out is the slowest. */
  lemma KeptAreFastest(valid: seq<Shot>)
    requires |valid| == 5
    ensures var sorted := SortBy(valid, Total);
            SortedBy(sorted[..4], Total) &&
            multiset(sorted[..4]) + multiset{sorted[4]} == multiset(valid) &&
            forall x :: x in valid ==> x.total <= sorted[4].total
  {
    var sorted := SortBy(valid, Total);
    SortByPermutes(valid, Total);
    assert sorted == sorted[..4] + [sorted[4]];
    forall x | x in valid
      ensures x.total <= sorted[4].total
    {
      assert x in multiset(sorted);
      var k :| 0 <= k < |sorted| && sorted[k] == x;
    }
  }

  /** The string dicts of the valid strings all have their string number and a positive total. */
  lemma ValidShots(rows: seq<StringRow>, stage: int)
    ensures forall x :: x in Valid(ShotsOf(rows, stage)) ==> x.stringNo.Some? && x.total > 0
  {
    ValidMeaning(ShotsOf(rows, stage));
    ShotsOfMeaning(rows, stage);
  }

  /**
   * With exactly five valid strings the corrected row names the slowest
   * string as dropped: a string of the stage whose total no valid string
   * exceeds. Otherwise nothing is dropped. The count is that of the valid
   * strings.
   */
  lemma RecordDropsSlowest(e: Entry, key: int, rows: seq<StringRow>, stage: int)
    ensures var shots := ShotsOf(rows, stage);
            var r := Record(e, key, SortBy(Valid(shots), Total));
            r.stringsCount == |Valid(shots)| &&
            (r.dropped.Some? <==> |Valid(shots)| == 5) &&
            (|Valid(shots)| == 5 ==>
              exists x :: x in Valid(shots) && Some(r.dropped.value) == x.stringNo &&
                forall y :: y in Valid(shots) ==> y.total <= x.total)
  {
    var shots := ShotsOf(rows, stage);
    var valid := SortBy(Valid(shots), Total);
    SortByPermutes(Valid(shots), Total);
    ValidShots(rows, stage);
    if |Valid(shots)| == 5 {
      KeptAreFastest(Valid(shots));
      assert valid[4] in multiset(Valid(shots));
      assert valid[4] in Valid(shots);
    }
  }

  /**
   * As written, the dropped number is 5 even when another string is the
   * slowest. Here the sorted valid strings of a stage end with string 1, the
   * one left out of the totals, but 5 is recorded.
   */
  lemma DroppedIsLiteralFive(e: Entry, key: int)
    ensures var valid := [Shot(Some(2), 10, 0, 10), Shot(Some(3), 20, 0, 20), Shot(Some(4), 30, 0, 30),
                          Shot(Some(5), 40, 0, 40), Shot(Some(1), 50, 0, 50)];
            SortedBy(valid, Total) && valid[4].stringNo == Some(1) &&
            RecordAsWritten(e, key, valid).dropped == Some(5) &&
            Record(e, key, valid).dropped == Some(1)
  {
  }

  /**
   * As written, a stage with two valid strings records a count of 4: the
   * padding loop lengthened `valid_strings` too.
   */
  lemma CountIncludesPadding(e: Entry, key: int)
    ensures var valid := [Shot(Some(1), 10, 0, 10), Shot(Some(2), 20, 0, 20)];
            RecordAsWritten(e, key, valid).stringsCount == 4 && Record(e, key, valid).stringsCount == 2
  {
  }

  // ---------------------------------------------------------------------------
  // The entry loop
  // ---------------------------------------------------------------------------

  /** `fact_stage_performance`, keyed by its conflict columns `(entry_id, stage_key)`. */
  datatype PerfKey = PerfKey(entryId: int, stageKey: int)

  type PerfTable = map<PerfKey, StagePerf>

  /** `INSERT … ON CONFLICT (entry_id, stage_key) DO NOTHING`. */
  function InsertIfAbsent(t: PerfTable, row: Option<StagePerf>): PerfTable
  {
    if row.None? then t
    else
      var k := PerfKey(row.value.entryId, row.value.stageKey);
      if k in t then t else t[k := row.value]
  }

  /** The stages of one entry, in dict order, inserted one after another. */
  function InsertStages(t: PerfTable, e: Entry, rows: seq<StringRow>, order: seq<int>, stageKeyOf: string -> Option<int>): PerfTable
  {
    if order == [] then t
    else
      var s := order[|order| - 1];
      InsertIfAbsent(InsertStages(t, e, rows, order[..|order| - 1], stageKeyOf), StageResult(e, s, ShotsOf(rows, s), stageKeyOf))
  }

  /** The entries in query order; `stringsOf(id)` is what the per-entry query returns. */
  function InsertEntries(t: PerfTable, entries: seq<Entry>, stringsOf: int -> seq<StringRow>, stageKeyOf: string -> Option<int>): PerfTable
  {
    if entries == [] then t
    else
      var e := entries[|entries| - 1];
      var rows := stringsOf(e.id);
      InsertStages(InsertEntries(t, entries[..|entries| - 1], stringsOf, stageKeyOf), e, rows, StageOrder(rows), stageKeyOf)
  }

  /**
   * The statements of a run that can raise: the entry query, an entry's
   * strings query, `SELECT get_stage_key(%s)`, an INSERT, and the
   * `SELECT COUNT(*)` after the commit.
   */
  datatype Stmt = SelectEntries | SelectStrings(entryId: int) | StageKeyQuery(name: string) |
                  InsertStage(entryId: int, stageKey: int) | CountRows

  /**
   * Stage `s` of entry `e` raises: its stage-key lookup raises, or the
   * lookup goes through and the INSERT of the stage's row raises. An
   * unknown stage number runs no statement.
   */
  predicate StageRaises(e: Entry, rows: seq<StringRow>, s: int, stageKeyOf: string -> Option<int>, fails: Stmt -> bool)
  {
    StageName(s).Some? &&
    (fails(StageKeyQuery(StageName(s).value)) ||
     (var r := StageResult(e, s, ShotsOf(rows, s), stageKeyOf); r.Some? && fails(InsertStage(e.id, r.value.stageKey))))
  }

  predicate StagesRaise(e: Entry, rows: seq<StringRow>, order: seq<int>, stageKeyOf: string -> Option<int>, fails: Stmt -> bool)
  {
    exists i :: 0 <= i < |order| && StageRaises(e, rows, order[i], stageKeyOf, fails)
  }

  /** The stages of one entry in `order`, up to the first statement that raises (None). */
  function EntryRun(t: PerfTable, e: Entry, rows: seq<StringRow>, order: seq<int>, stageKeyOf: string -> Option<int>,
                    fails: Stmt -> bool): Option<PerfTable>
  {
    if order == [] then Some(t)
    else
      var prev := EntryRun(t, e, rows, order[..|order| - 1], stageKeyOf, fails);
      var s := order[|order| - 1];
      if prev.None? || StageRaises(e, rows, s, stageKeyOf, fails) then None
      else Some(InsertIfAbsent(prev.value, StageResult(e, s, ShotsOf(rows, s), stageKeyOf)))
  }

  /** An entry raises when its strings query does or one of its stages does. */
  predicate EntryRaises(e: Entry, stringsOf: int -> seq<StringRow>, stageKeyOf: string -> Option<int>, fails: Stmt -> bool)
  {
    fails(SelectStrings(e.id)) || StagesRaise(e, stringsOf(e.id), StageOrder(stringsOf(e.id)), stageKeyOf, fails)
  }

  predicate AnyEntryRaises(entries: seq<Entry>, stringsOf: int -> seq<StringRow>, stageKeyOf: string -> Option<int>,
                           fails: Stmt -> bool)
  {
    exists i :: 0 <= i < |entries| && EntryRaises(entries[i], stringsOf, stageKeyOf, fails)
  }

  /** The entries in order, up to the first statement that raises (None). */
  function EntriesRun(t: PerfTable, entries: seq<Entry>, stringsOf: int -> seq<StringRow>, stageKeyOf: string -> Option<int>,
                      fails: Stmt -> bool): Option<PerfTable>
  {
    if entries == [] then Some(t)
    else
      var prev := EntriesRun(t, entries[..|entries| - 1], stringsOf, stageKeyOf, fails);
      var e := entries[|entries| - 1];
      if prev.None? || fails(SelectStrings(e.id)) then None
      else EntryRun(prev.value, e, stringsOf(e.id), StageOrder(stringsOf(e.id)), stageKeyOf, fails)
  }

  /** One entry raises exactly when one of its statements does; otherwise it inserts its stage rows. */
  lemma {:induction false} EntryRunMeaning(t: PerfTable, e: Entry, rows: seq<StringRow>, order: seq<int>,
                                           stageKeyOf: string -> Option<int>, fails: Stmt -> bool)
    ensures EntryRun(t, e, rows, order, stageKeyOf, fails) ==
            if StagesRaise(e, rows, order, stageKeyOf, fails) then None else Some(InsertStages(t, e, rows, order, stageKeyOf))
  {
    if order != [] {
      var init := order[..|order| - 1];
      EntryRunMeaning(t, e, rows, init, stageKeyOf, fails);
      if StagesRaise(e, rows, init, stageKeyOf, fails) {
        var i :| 0 <= i < |init| && StageRaises(e, rows, init[i], stageKeyOf, fails);
        assert order[i] == init[i];
      }
      if StagesRaise(e, rows, order, stageKeyOf, fails) && !StageRaises(e, rows, order[|order| - 1], stageKeyOf, fails) {
        var i :| 0 <= i < |order| && StageRaises(e, rows, order[i], stageKeyOf, fails);
        assert init[i] == order[i];
      }
    }
  }

  /**
   * The run is all or nothing: it raises exactly when a statement of some
   * entry raises, and otherwise leaves the reference table of all entries.
   */
  lemma {:induction false} EntriesRunMeaning(t: PerfTable, entries: seq<Entry>, stringsOf: int -> seq<StringRow>,
                                             stageKeyOf: string -> Option<int>, fails: Stmt -> bool)
    ensures EntriesRun(t, entries, stringsOf, stageKeyOf, fails) ==
            if AnyEntryRaises(entries, stringsOf, stageKeyOf, fails) then None
            else Some(InsertEntries(t, entries, stringsOf, stageKeyOf))
  {
    if entries != [] {
      var init := entries[..|entries| - 1];
      var e := entries[|entries| - 1];
      EntriesRunMeaning(t, init, stringsOf, stageKeyOf, fails);
      if AnyEntryRaises(init, stringsOf, stageKeyOf, fails) {
        var i :| 0 <= i < |init| && EntryRaises(init[i], stringsOf, stageKeyOf, fails);
        assert entries[i] == init[i];
      } else {
        EntryRunMeaning(InsertEntries(t, init, stringsOf, stageKeyOf), e, stringsOf(e.id), StageOrder(stringsOf(e.id)),
                        stageKeyOf, fails);
      }
    }
  }

  /** Once a stage has raised the entry has raised, whatever stages follow. */
  lemma {:induction false} EntryRunStaysNone(t: PerfTable, e: Entry, rows: seq<StringRow>, order: seq<int>, k: nat,
                                             stageKeyOf: string -> Option<int>, fails: Stmt -> bool)
    requires k <= |order| && EntryRun(t, e, rows, order[..k], stageKeyOf, fails).None?
    ensures EntryRun(t, e, rows, order, stageKeyOf, fails).None?
    decreases |order| - k
  {
    if k < |order| {
      assert order[..k + 1][..k] == order[..k];
      EntryRunStaysNone(t, e, rows, order, k + 1, stageKeyOf, fails);
    } else {
      assert order[..k] == order;
    }
  }

  /** Once an entry has raised the run has raised, whatever entries follow. */
  lemma {:induction false} EntriesRunStaysNone(t: PerfTable, entries: seq<Entry>, k: nat, stringsOf: int -> seq<StringRow>,
                                               stageKeyOf: string -> Option<int>, fails: Stmt -> bool)
    requires k <= |entries| && EntriesRun(t, entries[..k], stringsOf, stageKeyOf, fails).None?
    ensures EntriesRun(t, entries, stringsOf, stageKeyOf, fails).None?
    decreases |entries| - k
  {
    if k < |entries| {
      assert entries[..k + 1][..k] == entries[..k];
      EntriesRunStaysNone(t, entries, k + 1, stringsOf, stageKeyOf, fails);
    } else {
      assert entries[..k] == entries;
    }
  }

  /** One more stage: it raises, or its row is inserted unless one is already there. */
  lemma EntryRunSnoc(t: PerfTable, e: Entry, rows: seq<StringRow>, order: seq<int>, n: nat,
                     stageKeyOf: string -> Option<int>, fails: Stmt -> bool, cur: PerfTable)
    requires n < |order| && EntryRun(t, e, rows, order[..n], stageKeyOf, fails) == Some(cur)
    ensures var s := order[n];
            EntryRun(t, e, rows, order[..n + 1], stageKeyOf, fails) ==
            if StageRaises(e, rows, s, stageKeyOf, fails) then None
            else Some(InsertIfAbsent(cur, StageResult(e, s, ShotsOf(rows, s), stageKeyOf)))
  {
    assert order[..n + 1][..n] == order[..n] && order[..n + 1][n] == order[n];
  }

  /** One more entry: its strings query raises, or the run goes on with that entry's stages. */
  lemma EntriesRunSnoc(t0: PerfTable, entries: seq<Entry>, n: nat, stringsOf: int -> seq<StringRow>,
                       stageKeyOf: string -> Option<int>, fails: Stmt -> bool, cur: PerfTable)
    requires n < |entries| && EntriesRun(t0, entries[..n], stringsOf, stageKeyOf, fails) == Some(cur)
    ensures var e := entries[n];
            EntriesRun(t0, entries[..n + 1], stringsOf, stageKeyOf, fails) ==
            if fails(SelectStrings(e.id)) then None else EntryRun(cur, e, stringsOf(e.id), StageOrder(stringsOf(e.id)), stageKeyOf, fails)
  {
    assert entries[..n + 1][..n] == entries[..n] && entries[..n + 1][n] == entries[n];
  }

  /**
   * One entry: group its rows, then for each stage look its key up and
   * insert its row, stopping at the first statement that raises (None).
   */
  method ProcessEntry(t: PerfTable, e: Entry, rows: seq<StringRow>, stageKeyOf: string -> Option<int>, fails: Stmt -> bool)
    returns (r: Option<PerfTable>)
    ensures r == EntryRun(t, e, rows, StageOrder(rows), stageKeyOf, fails)
  {
    var order, stages := GroupStages(rows);
    var cur := t;
    var i := 0;
    while i < |order|
      invariant i <= |order|
      invariant EntryRun(t, e, rows, order[..i], stageKeyOf, fails) == Some(cur)
    {
      EntryRunSnoc(t, e, rows, order, i, stageKeyOf, fails, cur);
      var name := StageName(order[i]);
      if name.Some? {
        if fails(StageKeyQuery(name.value)) {
          EntryRunStaysNone(t, e, rows, order, i + 1, stageKeyOf, fails);
          return None;
        }
        var row := BuildStage(e, order[i], stages[order[i]], stageKeyOf);
        if row.Some? {
          if fails(InsertStage(e.id, row.value.stageKey)) {
            EntryRunStaysNone(t, e, rows, order, i + 1, stageKeyOf, fails);
            return None;
          }
          if PerfKey(row.value.entryId, row.value.stageKey) !in cur {
            cur := cur[PerfKey(row.value.entryId, row.value.stageKey) := row.value];
          }
        }
      }
      i := i + 1;
    }
    assert order[..i] == order;
    return Some(cur);
  }

  /**
   * `process_stage_aggregation`: every entry is processed in order in one
   * transaction that is committed at the end. An exception before the
   * commit rolls the whole run back and is raised again; the count after
   * the commit can still raise, with the rows committed.
   */
  method ProcessStageAggregation(t0: PerfTable, entries: seq<Entry>, stringsOf: int -> seq<StringRow>,
                                 stageKeyOf: string -> Option<int>, fails: Stmt -> bool)
    returns (t: PerfTable, processed: nat, raised: bool)
    ensures processed <= |entries|
    ensures raised <==> fails(SelectEntries) || AnyEntryRaises(entries, stringsOf, stageKeyOf, fails) || fails(CountRows)
    ensures t == if fails(SelectEntries) || AnyEntryRaises(entries, stringsOf, stageKeyOf, fails) then t0
                 else InsertEntries(t0, entries, stringsOf, stageKeyOf)
    ensures !raised ==> processed == |entries|
  {
    if fails(SelectEntries) {
      return t0, 0, true;
    }
    var cur := t0;
    processed := 0;
    while processed < |entries|
      invariant processed <= |entries|
      invariant EntriesRun(t0, entries[..processed], stringsOf, stageKeyOf, fails) == Some(cur)
    {
      var e := entries[processed];
      EntriesRunSnoc(t0, entries, processed, stringsOf, stageKeyOf, fails, cur);
      if fails(SelectStrings(e.id)) {
        EntriesRunStaysNone(t0, entries, processed + 1, stringsOf, stageKeyOf, fails);
        EntriesRunMeaning(t0, entries, stringsOf, stageKeyOf, fails);
        return t0, processed, true;
      }
      var r := ProcessEntry(cur, e, stringsOf(e.id), stageKeyOf, fails);
      if r.None? {
        EntriesRunStaysNone(t0, entries, processed + 1, stringsOf, stageKeyOf, fails);
        EntriesRunMeaning(t0, entries, stringsOf, stageKeyOf, fails);
        return t0, processed, true;
      }
      cur := r.value;
      processed := processed + 1;
    }
    assert entries[..processed] == entries;
    EntriesRunMeaning(t0, entries, stringsOf, stageKeyOf, fails);
    t, raised := cur, fails(CountRows);
  }

  lemma InsertEntriesSnoc(t0: PerfTable, entries: seq<Entry>, n: nat, stringsOf: int -> seq<StringRow>, stageKeyOf: string -> Option<int>)
    requires n < |entries|
    ensures var e := entries[n];
            InsertEntries(t0, entries[..n + 1], stringsOf, stageKeyOf) ==
            InsertStages(InsertEntries(t0, entries[..n], stringsOf, stageKeyOf), e, stringsOf(e.id), StageOrder(stringsOf(e.id)), stageKeyOf)
  {
    assert entries[..n + 1][..n] == entries[..n];
  }

  /** `DO NOTHING`: a row already stored is never replaced, so existing rows survive a run unchanged. */
  lemma {:induction false} InsertStagesKeeps(t: PerfTable, e: Entry, rows: seq<StringRow>, order: seq<int>, stageKeyOf: string -> Option<int>)
    ensures var t' := InsertStages(t, e, rows, order, stageKeyOf);
            forall k :: k in t ==> k in t' && t'[k] == t[k]
  {
    if order != [] {
      InsertStagesKeeps(t, e, rows, order[..|order| - 1], stageKeyOf);
    }
  }

  lemma {:induction false} InsertEntriesKeeps(t: PerfTable, entries: seq<Entry>, stringsOf: int -> seq<StringRow>, stageKeyOf: string -> Option<int>)
    ensures var t' := InsertEntries(t, entries, stringsOf, stageKeyOf);
            forall k :: k in t ==> k in t' && t'[k] == t[k]
  {
    if entries != [] {
      var init := entries[..|entries| - 1];
      InsertEntriesKeeps(t, init, stringsOf, stageKeyOf);
      var e := entries[|entries| - 1];
      InsertStagesKeeps(InsertEntries(t, init, stringsOf, stageKeyOf), e, stringsOf(e.id), StageOrder(stringsOf(e.id)), stageKeyOf);
    }
  }

  /** Every row a run adds belongs to one of the processed entries, under its own key. */
  lemma {:induction false} InsertEntriesAddsOnlyEntries(t: PerfTable, entries: seq<Entry>, stringsOf: int -> seq<StringRow>,
                                                        stageKeyOf: string -> Option<int>)
    ensures var t' := InsertEntries(t, entries, stringsOf, stageKeyOf);
            forall k :: k in t' && k !in t ==>
              t'[k].entryId == k.entryId && t'[k].stageKey == k.stageKey &&
              exists i :: 0 <= i < |entries| && entries[i].id == k.entryId && t'[k].entry == entries[i]
  {
    if entries != [] {
      var init := entries[..|entries| - 1];
      InsertEntriesAddsOnlyEntries(t, init, stringsOf, stageKeyOf);
      var e := entries[|entries| - 1];
      var t1 := InsertEntries(t, init, stringsOf, stageKeyOf);
      InsertStagesAddsOnly(t1, e, stringsOf(e.id), StageOrder(stringsOf(e.id)), stageKeyOf);
      var t' := InsertEntries(t, entries, stringsOf, stageKeyOf);
      forall k | k in t' && k !in t
        ensures t'[k].entryId == k.entryId && t'[k].stageKey == k.stageKey &&
                exists i :: 0 <= i < |entries| && entries[i].id == k.entryId && t'[k].entry == entries[i]
      {
        if k in t1 {
          InsertStagesKeeps(t1, e, stringsOf(e.id), StageOrder(stringsOf(e.id)), stageKeyOf);
          var i :| 0 <= i < |init| && init[i].id == k.entryId && t1[k].entry == init[i];
          assert entries[i] == init[i];
        } else {
          assert entries[|entries| - 1] == e;
        }
      }
    }
  }

  lemma {:induction false} InsertStagesAddsOnly(t: PerfTable, e: Entry, rows: seq<StringRow>, order: seq<int>, stageKeyOf: string -> Option<int>)
    ensures var t' := InsertStages(t, e, rows, order, stageKeyOf);
            forall k :: k in t' && k !in t ==> t'[k].entryId == k.entryId == e.id && t'[k].stageKey == k.stageKey && t'[k].entry == e
  {
    if order != [] {
      InsertStagesAddsOnly(t, e, rows, order[..|order| - 1], stageKeyOf);
    }
  }
}
