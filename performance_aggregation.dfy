/**
 * `scripts/silver/etl_performance_aggregation.py`: the stage aggregation
 * (group the queried string rows by entry and stage, drop the slowest of
 * five strings, total and pad the rest) and the squad rules of its last
 * SQL statement (the four lowest positive match totals per competition,
 * team and discipline).
 *
 * Times are NUMERIC columns read as `Decimal`; they are modelled as integers
 * in thousandths of a second, so sums are exact.
 */
module PerformanceAggregation {
  import opened Wrappers
  import opened StableSort

  // ---------------------------------------------------------------------------
  // drop_slowest_string
  // ---------------------------------------------------------------------------

  /** `(string_num, raw_time, total_time, penalties)`; None is SQL NULL. */
  datatype StringTime = StringTime(num: int, raw: Option<int>, total: Option<int>, pen: Option<int>)

  /**
   * The sort key of a string without a (truthy) total: the float `999.999`.
   * Python compares a `Decimal` with a float exactly, and the double nearest
   * 999.999 is 999.99900000000002364..., so it lies strictly between the
   * decimals 999.999 and 1000.000. Keys are doubled thousandths so that it
   * falls between the keys of those two.
   */
  const NoTotal: int := 2 * 999999 + 1

  /** `x[2] or 999.999`: a NULL or zero total sorts as the float 999.999. */
  function SortKey(s: StringTime): int
  {
    if s.total.None? || s.total.value == 0 then NoTotal else 2 * s.total.value
  }

  /**
   * The float key sits strictly between the decimal totals 999.999 and
   * 1000.000: a total of at most 999.999 sorts before a string without a
   * total, and one of at least 1000.000 after it.
   */
  lemma NoTotalBetween(a: StringTime, t: int)
    requires a.total == Some(t) && t != 0
    ensures SortKey(a) < NoTotal <==> t <= 999999
    ensures NoTotal < SortKey(a) <==> 1000000 <= t
  {
  }

  /**
   * `drop_slowest_string(strings)`: four strings or fewer come back as they
   * are with no dropped string; otherwise all but the last after a stable
   * sort on `SortKey`, and the number of that last one. The index the
   * source carries alongside each tuple is stripped again afterwards and
   * does not take part in the sort key, so it does not change the order.
   */
  function DropSlowest(strings: seq<StringTime>): (seq<StringTime>, Option<int>)
  {
    if |strings| <= 4 then (strings, None)
    else
      var sorted := SortBy(strings, SortKey);
      (sorted[..|sorted| - 1], Some(sorted[|sorted| - 1].num))
  }

  /** With four strings or fewer nothing is dropped and the list is unchanged. */
  lemma DropSlowestFew(strings: seq<StringTime>)
    requires |strings| <= 4
    ensures DropSlowest(strings) == (strings, None)
  {
  }

  /**
   * Five strings with totals 0.001, 0.002, 0.003, 999.999 and NULL: the NULL
   * string sorts last under the float key and is the one dropped.
   */
  lemma DropSlowestAtTie()
    ensures var strings := [StringTime(1, Some(1), Some(1), None), StringTime(2, Some(2), Some(2), None),
                            StringTime(3, Some(3), Some(3), None), StringTime(4, Some(999999), Some(999999), None),
                            StringTime(5, None, None, None)];
            DropSlowest(strings) == (strings[..4], Some(5))
  {
    var strings := [StringTime(1, Some(1), Some(1), None), StringTime(2, Some(2), Some(2), None),
                    StringTime(3, Some(3), Some(3), None), StringTime(4, Some(999999), Some(999999), None),
                    StringTime(5, None, None, None)];
    SortBySorted(strings, SortKey);
  }

  /**
   * With five strings or more exactly one is dropped: the last, in input
   * order, of those with the largest sort key. The others come back in
   * ascending order, strings with equal keys in their input order, and
   * together with the dropped one they are the input.
   */
  lemma DropSlowestMany(strings: seq<StringTime>)
    requires |strings| >= 5
    ensures var (kept, dropped) := DropSlowest(strings);
            var j := LastSlowest(strings, SortKey);
            |kept| == |strings| - 1 &&
            dropped == Some(strings[j].num) &&
            SortedBy(kept, SortKey) &&
            (forall k :: 0 <= k < |kept| ==> SortKey(kept[k]) <= SortKey(strings[j])) &&
            multiset(kept) + multiset{strings[j]} == multiset(strings) &&
            (forall v :: WithKey(kept + [strings[j]], SortKey, v) == WithKey(strings, SortKey, v))
  {
    var sorted := SortBy(strings, SortKey);
    var kept := sorted[..|sorted| - 1];
    var j := LastSlowest(strings, SortKey);
    assert sorted == kept + [strings[j]] by {
      SortByLast(strings, SortKey);
      SplitLast(sorted);
    }
    assert SortedBy(sorted, SortKey) && multiset(sorted) == multiset(strings) by {
      SortByPermutes(strings, SortKey);
    }
    forall v
      ensures WithKey(kept + [strings[j]], SortKey, v) == WithKey(strings, SortKey, v)
    {
      SortByStable(strings, SortKey, v);
    }
  }

  // ---------------------------------------------------------------------------
  // Sums, padding and counts over a stage's strings
  // ---------------------------------------------------------------------------

  /** `sum(s[i] for s in strings if s[i] is not None)` for the field `f`. */
  function SumOf(l: seq<StringTime>, f: StringTime -> Option<int>): int
  {
    if l == [] then 0 else Value(f(l[0])) + SumOf(l[1..], f)
  }

  function Value(o: Option<int>): int
  {
    if o.Some? then o.value else 0
  }

  lemma {:induction false} SumOfSnoc(l: seq<StringTime>, x: StringTime, f: StringTime -> Option<int>)
    ensures SumOf(l + [x], f) == SumOf(l, f) + Value(f(x))
    decreases |l|
  {
    if l != [] {
      assert (l + [x])[1..] == l[1..] + [x];
      SumOfSnoc(l[1..], x, f);
    }
  }

  lemma {:induction false} SumOfInsert(x: StringTime, s: seq<StringTime>, key: StringTime -> int, f: StringTime -> Option<int>)
    ensures SumOf(Insert(x, s, key), f) == Value(f(x)) + SumOf(s, f)
    decreases |s|
  {
    if s != [] && key(x) >= key(s[0]) {
      SumOfInsert(x, s[1..], key, f);
      var r := [s[0]] + Insert(x, s[1..], key);
      assert r[0] == s[0] && r[1..] == Insert(x, s[1..], key);
    } else if s != [] {
      var r := [x] + s;
      assert r[0] == x && r[1..] == s;
    }
  }

  /** Sorting does not change a sum. */
  lemma {:induction false} SumOfSortBy(xs: seq<StringTime>, key: StringTime -> int, f: StringTime -> Option<int>)
    ensures SumOf(SortBy(xs, key), f) == SumOf(xs, f)
  {
    if xs != [] {
      var init := xs[..|xs| - 1];
      SumOfSortBy(init, key, f);
      SumOfInsert(xs[|xs| - 1], SortBy(init, key), key, f);
      assert xs == init + [xs[|xs| - 1]];
      SumOfSnoc(init, xs[|xs| - 1], f);
    }
  }

  /**
   * A stage's totals over the kept strings are the totals over all its
   * strings less the dropped string's own values.
   */
  lemma DroppedLeavesSums(strings: seq<StringTime>, f: StringTime -> Option<int>)
    requires |strings| >= 5
    ensures SumOf(DropSlowest(strings).0, f) + Value(f(strings[LastSlowest(strings, SortKey)])) == SumOf(strings, f)
  {
    var sorted := SortBy(strings, SortKey);
    var n := |sorted|;
    var kept, last := sorted[..n - 1], sorted[n - 1];
    assert DropSlowest(strings).0 == kept;
    assert last == strings[LastSlowest(strings, SortKey)] by {
      SortByLast(strings, SortKey);
    }
    assert SumOf(kept, f) + Value(f(last)) == SumOf(sorted, f) by {
      SplitLast(sorted);
      SumOfSnoc(kept, last, f);
    }
    assert SumOf(sorted, f) == SumOf(strings, f) by {
      SumOfSortBy(strings, SortKey, f);
    }
  }

  /** `(0, None, None, None)`, the tuple the list is padded with. */
  const Blank: StringTime := StringTime(0, None, None, None)

  /** The list padded with blanks to at least four entries. */
  function Pad4(l: seq<StringTime>): (r: seq<StringTime>)
    ensures |r| >= 4 && |r| >= |l| && r[..|l|] == l
    ensures forall k :: |l| <= k < |r| ==> r[k] == Blank
    ensures |l| >= 4 ==> r == l
  {
    if |l| < 4 then l + seq(4 - |l|, _ => Blank) else l
  }

  /** `while len(fastest_4) < 4: fastest_4.append((0, None, None, None))`. */
  method PadStrings(l: seq<StringTime>) returns (r: seq<StringTime>)
    ensures r == Pad4(l)
  {
    r := l;
    while |r| < 4
      invariant |l| <= |r| && (|l| < 4 ==> |r| <= 4) && (|l| >= 4 ==> r == l)
      invariant r == l + seq(|r| - |l|, _ => Blank)
      decreases 4 - |r|
    {
      assert l + seq(|r| + 1 - |l|, _ => Blank) == (l + seq(|r| - |l|, _ => Blank)) + [Blank];
      r := r + [Blank];
    }
  }

  /** `len([s for s in strings if s[1] is not None])`. */
  function CountRaw(l: seq<StringTime>): (n: nat)
    ensures n <= |l|
  {
    if l == [] then 0 else (if l[0].raw.Some? then 1 else 0) + CountRaw(l[1..])
  }

  lemma {:induction false} CountRawBlanks(l: seq<StringTime>)
    requires forall k :: 0 <= k < |l| ==> l[k] == Blank
    ensures CountRaw(l) == 0
  {
    if l != [] {
      CountRawBlanks(l[1..]);
    }
  }

  lemma {:induction false} CountRawAppend(a: seq<StringTime>, b: seq<StringTime>)
    ensures CountRaw(a + b) == CountRaw(a) + CountRaw(b)
  {
    if a == [] {
      assert a + b == b;
    } else {
      assert (a + b)[0] == a[0] && (a + b)[1..] == a[1..] + b;
      CountRawAppend(a[1..], b);
    }
  }

  /** Padding adds no string with a raw time, so `strings_count` counts the kept strings that have one. */
  lemma PadKeepsCount(l: seq<StringTime>)
    ensures CountRaw(Pad4(l)) == CountRaw(l)
  {
    var r := Pad4(l);
    assert r == l + r[|l|..];
    CountRawAppend(l, r[|l|..]);
    CountRawBlanks(r[|l|..]);
  }

  /** Every string of a stage with a raw time gives `strings_count == len(kept)`. */
  lemma {:induction false} CountRawAll(l: seq<StringTime>)
    requires forall k :: 0 <= k < |l| ==> l[k].raw.Some?
    ensures CountRaw(l) == |l|
  {
    if l != [] {
      CountRawAll(l[1..]);
    }
  }

  // ---------------------------------------------------------------------------
  // aggregate_stage_performance
  // ---------------------------------------------------------------------------

  /** A row of the string query, in its `ORDER BY entry_id, stage_no, string_no` order. */
  datatype StringRow = StringRow(entry: int, comp: int, team: int, athlete: int, disc: int, slot: int,
                                 stage: int, num: int, raw: Option<int>, total: Option<int>, pen: Option<int>)

  /** `(entry_id, comp_key, team_key, athlete_key, disc_key, slot_key, stage_no)`. */
  datatype GroupKey = GroupKey(entry: int, comp: int, team: int, athlete: int, disc: int, slot: int, stage: int)

  function KeyOf(r: StringRow): GroupKey
  {
    GroupKey(r.entry, r.comp, r.team, r.athlete, r.disc, r.slot, r.stage)
  }

  function TimeOf(r: StringRow): StringTime
  {
    StringTime(r.num, r.raw, r.total, r.pen)
  }

  /** The keys of `entries_stages` in insertion order: each key where it first occurs. */
  function GroupKeys(rows: seq<StringRow>): (ks: seq<GroupKey>)
    ensures forall k :: k in ks <==> exists i :: 0 <= i < |rows| && KeyOf(rows[i]) == k
    ensures forall i, j :: 0 <= i < j < |ks| ==> ks[i] != ks[j]
  {
    if rows == [] then []
    else
      var init := rows[..|rows| - 1];
      var ks := GroupKeys(init);
      var k := KeyOf(rows[|rows| - 1]);
      assert forall i :: 0 <= i < |init| ==> init[i] == rows[i];
      if k in ks then ks else ks + [k]
  }

  /** `entries_stages[key]`: the strings of the rows with that key, in row order. */
  function GroupOf(rows: seq<StringRow>, k: GroupKey): (g: seq<StringTime>)
    ensures g == [] <==> forall i :: 0 <= i < |rows| ==> KeyOf(rows[i]) != k
  {
    if rows == [] then []
    else
      var init := rows[..|rows| - 1];
      assert forall i :: 0 <= i < |init| ==> init[i] == rows[i];
      GroupOf(init, k) + (if KeyOf(rows[|rows| - 1]) == k then [TimeOf(rows[|rows| - 1])] else [])
  }

  /** Every string of a group comes from a row with the group's key. */
  lemma {:induction false} GroupOfRows(rows: seq<StringRow>, k: GroupKey)
    ensures forall t :: t in GroupOf(rows, k) ==> exists i :: 0 <= i < |rows| && KeyOf(rows[i]) == k && TimeOf(rows[i]) == t
    ensures |GroupOf(rows, k)| <= |rows|
  {
    if rows != [] {
      var init := rows[..|rows| - 1];
      GroupOfRows(init, k);
      assert forall i :: 0 <= i < |init| ==> init[i] == rows[i];
    }
  }

  /** The loop that fills `entries_stages`. */
  method GroupRows(rows: seq<StringRow>) returns (order: seq<GroupKey>, groups: map<GroupKey, seq<StringTime>>)
    ensures order == GroupKeys(rows)
    ensures forall k :: k in groups <==> k in order
    ensures forall k :: k in groups ==> groups[k] == GroupOf(rows, k)
  {
    order, groups := [], map[];
    for i := 0 to |rows|
      invariant order == GroupKeys(rows[..i])
      invariant forall k :: k in groups <==> k in order
      invariant forall k :: k in groups ==> groups[k] == GroupOf(rows[..i], k)
    {
      var k := KeyOf(rows[i]);
      assert rows[..i + 1][..i] == rows[..i];
      if k !in groups {
        groups := groups[k := []];
        order := order + [k];
      }
      groups := groups[k := groups[k] + [TimeOf(rows[i])]];
    }
    assert rows[..|rows|] == rows;
  }

  /** A `fact_stage_performance` row; `columns` are the four `string<n>_*` triples. */
  datatype StageRecord = StageRecord(key: GroupKey, stageKey: int, totalRaw: int, totalTotal: int, totalPen: int,
                                     stringsCount: nat, dropped: Option<int>, columns: seq<StringTime>)

  function Raw(s: StringTime): Option<int> { s.raw }
  function Total(s: StringTime): Option<int> { s.total }
  function Pen(s: StringTime): Option<int> { s.pen }

  /** The record of one group of strings whose stage has the key `stageKey`. */
  function StageRecordOf(k: GroupKey, stageKey: int, strings: seq<StringTime>): StageRecord
  {
    var (kept, dropped) := DropSlowest(strings);
    var padded := Pad4(kept);
    StageRecord(k, stageKey, SumOf(kept, Raw), SumOf(kept, Total), SumOf(kept, Pen),
                CountRaw(padded), dropped, padded[..4])
  }

  /**
   * What a record holds: the first four kept strings, then blanks; totals
   * over the kept strings; their number with a raw time; and, from five
   * strings on, the dropped string's number with the totals short of exactly
   * its values.
   */
  lemma StageRecordFacts(k: GroupKey, stageKey: int, strings: seq<StringTime>)
    ensures var r := StageRecordOf(k, stageKey, strings);
            var kept := DropSlowest(strings).0;
            |r.columns| == 4 &&
            (forall i :: 0 <= i < 4 ==> r.columns[i] == if i < |kept| then kept[i] else Blank) &&
            r.stringsCount == CountRaw(kept) &&
            (|strings| <= 4 ==> kept == strings && r.dropped.None?) &&
            (|strings| >= 5 ==>
               var j := LastSlowest(strings, SortKey);
               r.dropped == Some(strings[j].num) &&
               r.totalRaw + Value(strings[j].raw) == SumOf(strings, Raw) &&
               r.totalTotal + Value(strings[j].total) == SumOf(strings, Total) &&
               r.totalPen + Value(strings[j].pen) == SumOf(strings, Pen))
  {
    var kept := DropSlowest(strings).0;
    PadKeepsCount(kept);
    var padded := Pad4(kept);
    assert forall i :: 0 <= i < |kept| ==> padded[i] == padded[..|kept|][i];
    if |strings| >= 5 {
      DropSlowestMany(strings);
      DroppedLeavesSums(strings, Raw);
      DroppedLeavesSums(strings, Total);
      DroppedLeavesSums(strings, Pen);
    }
  }

  /** The records of the groups `ks`, in order: those whose stage number has a `dim_stage` key. */
  function StageRecords(ks: seq<GroupKey>, rows: seq<StringRow>, stageKeys: map<int, int>): seq<StageRecord>
  {
    if ks == [] then []
    else
      var k := ks[|ks| - 1];
      var strings := GroupOf(rows, k);
      StageRecords(ks[..|ks| - 1], rows, stageKeys) +
      (if k.stage in stageKeys && DropSlowest(strings).0 != [] then [StageRecordOf(k, stageKeys[k.stage], strings)] else [])
  }

  /** Every record is the record of one of the groups, built with its stage's key. */
  lemma {:induction false} StageRecordsSound(ks: seq<GroupKey>, rows: seq<StringRow>, stageKeys: map<int, int>)
    ensures forall r :: r in StageRecords(ks, rows, stageKeys) ==>
              r.key in ks && r.key.stage in stageKeys && r == StageRecordOf(r.key, stageKeys[r.key.stage], GroupOf(rows, r.key))
    ensures |StageRecords(ks, rows, stageKeys)| <= |ks|
  {
    if ks != [] {
      var init := ks[..|ks| - 1];
      StageRecordsSound(init, rows, stageKeys);
      assert forall x :: x in init ==> x in ks;
    }
  }

  /** A group of the query yields a record when its stage number has a `dim_stage` key. */
  lemma {:induction false} StageRecordsComplete(ks: seq<GroupKey>, rows: seq<StringRow>, stageKeys: map<int, int>)
    requires forall i :: 0 <= i < |ks| ==> ks[i] in GroupKeys(rows)
    ensures forall k :: k in ks && k.stage in stageKeys ==> exists r :: r in StageRecords(ks, rows, stageKeys) && r.key == k
  {
    if ks != [] {
      var init, k := ks[..|ks| - 1], ks[|ks| - 1];
      StageRecordsComplete(init, rows, stageKeys);
      var recs := StageRecords(ks, rows, stageKeys);
      assert forall r :: r in StageRecords(init, rows, stageKeys) ==> r in recs;
      if k.stage in stageKeys {
        var strings := GroupOf(rows, k);
        assert strings != [];
        assert DropSlowest(strings).0 != [];
        var r := StageRecordOf(k, stageKeys[k.stage], strings);
        assert r in recs && r.key == k;
      }
      assert forall x :: x in ks ==> x in init || x == k;
    }
  }

  /**
   * `aggregate_stage_performance` after the query: the table is truncated and
   * then holds exactly the records built here, one per group whose stage
   * number has a `dim_stage` key (`stageKeys`), in group order; the method
   * returns them and their number is the count the source returns.
   */
  method AggregateStagePerformance(rows: seq<StringRow>, stageKeys: map<int, int>) returns (records: seq<StageRecord>)
    ensures records == StageRecords(GroupKeys(rows), rows, stageKeys)
  {
    var order, groups := GroupRows(rows);
    records := [];
    for i := 0 to |order|
      invariant records == StageRecords(order[..i], rows, stageKeys)
    {
      var k := order[i];
      assert order[..i + 1][..i] == order[..i] && order[..i + 1][i] == k;
      var strings := groups[k];
      assert strings == GroupOf(rows, k);
      if k.stage !in stageKeys {
        continue;
      }
      var (kept, dropped) := DropSlowest(strings);
      if |kept| == 0 {
        continue;
      }
      var totalRaw, totalTotal, totalPen := SumOf(kept, Raw), SumOf(kept, Total), SumOf(kept, Pen);
      var padded := PadStrings(kept);
      var record := StageRecord(k, stageKeys[k.stage], totalRaw, totalTotal, totalPen,
                                CountRaw(padded), dropped, padded[..4]);
      assert record == StageRecordOf(k, stageKeys[k.stage], strings);
      records := records + [record];
    }
    assert order[..|order|] == order;
  }

  // ---------------------------------------------------------------------------
  // aggregate_squad_performance (the SQL statement)
  // ---------------------------------------------------------------------------

  /** A `fact_match_performance` row as the squad query reads it. */
  datatype MatchRow = MatchRow(entry: int, comp: int, team: int, disc: int, athlete: int, slot: int,
                               raw: Option<int>, total: Option<int>, pen: Option<int>,
                               division: Option<string>, classification: Option<int>)

  /** `PARTITION BY fmp.competition_key, fmp.team_key, fmp.discipline_key`. */
  datatype SquadKey = SquadKey(comp: int, team: int, disc: int)

  function SquadKeyOf(r: MatchRow): SquadKey
  {
    SquadKey(r.comp, r.team, r.disc)
  }

  /** `WHERE fmp.total_total_time IS NOT NULL AND fmp.total_total_time > 0`. */
  predicate Eligible(r: MatchRow)
  {
    r.total.Some? && r.total.value > 0
  }

  /** The rows of one partition that pass the filter, in table order. */
  function Members(rows: seq<MatchRow>, k: SquadKey): (ms: seq<MatchRow>)
    ensures forall r :: r in ms <==> r in rows && SquadKeyOf(r) == k && Eligible(r)
  {
    if rows == [] then []
    else
      var init := rows[..|rows| - 1];
      var r := rows[|rows| - 1];
      assert forall x :: x in rows <==> x in init || x == r;
      Members(init, k) + (if SquadKeyOf(r) == k && Eligible(r) then [r] else [])
  }

  /** `ORDER BY fmp.total_total_time ASC`. */
  function TotalKey(r: MatchRow): int
  {
    Value(r.total)
  }

  /** SQL `SUM`: NULL when every value is NULL, otherwise the sum of the others. */
  function SqlSum(ms: seq<MatchRow>, f: MatchRow -> Option<int>): Option<int>
  {
    if ms == [] then None
    else
      var rest := SqlSum(ms[1..], f);
      if f(ms[0]).None? then rest
      else Some(f(ms[0]).value + (if rest.Some? then rest.value else 0))
  }

  /** Text order, character by character (`a <= b`). */
  predicate TextLe(a: string, b: string)
  {
    if a == [] then true
    else if b == [] then false
    else if a[0] != b[0] then a[0] < b[0]
    else TextLe(a[1..], b[1..])
  }

  lemma {:induction false} TextLeTotal(a: string, b: string)
    ensures TextLe(a, b) || TextLe(b, a)
  {
    if a != [] && b != [] && a[0] == b[0] {
      TextLeTotal(a[1..], b[1..]);
    }
  }

  lemma {:induction false} TextLeTrans(a: string, b: string, c: string)
    requires TextLe(a, b) && TextLe(b, c)
    ensures TextLe(a, c)
  {
    if a != [] && a[0] == b[0] && b[0] == c[0] {
      TextLeTrans(a[1..], b[1..], c[1..]);
    }
  }

  /** SQL `MAX(fmp.division_name)`: the largest non-NULL value, NULL when there is none. */
  function MaxDivision(ms: seq<MatchRow>): Option<string>
  {
    if ms == [] then None
    else
      var rest := MaxDivision(ms[1..]);
      var d := ms[0].division;
      if d.None? then rest
      else if rest.None? then d
      else if TextLe(d.value, rest.value) then rest
      else d
  }

  /** The maximum is one of the names, no name is above it, and it is NULL only when all are. */
  lemma {:induction false} MaxDivisionMeaning(ms: seq<MatchRow>)
    ensures var m := MaxDivision(ms);
            (m.None? <==> forall i :: 0 <= i < |ms| ==> ms[i].division.None?) &&
            (m.Some? ==> exists i :: 0 <= i < |ms| && ms[i].division == m) &&
            (m.Some? ==> forall i :: 0 <= i < |ms| && ms[i].division.Some? ==> TextLe(ms[i].division.value, m.value))
  {
    if ms != [] {
      var tail := ms[1..];
      MaxDivisionMeaning(tail);
      var rest, d := MaxDivision(tail), ms[0].division;
      assert forall i :: 1 <= i < |ms| ==> ms[i] == tail[i - 1];
      if rest.Some? {
        var i :| 0 <= i < |tail| && tail[i].division == rest;
        assert ms[i + 1].division == rest;
      }
      if d.Some? && rest.Some? && !TextLe(d.value, rest.value) {
        TextLeTotal(d.value, rest.value);
        forall i | 1 <= i < |ms| && ms[i].division.Some?
          ensures TextLe(ms[i].division.value, d.value)
        {
          TextLeTrans(ms[i].division.value, rest.value, d.value);
        }
      }
      if d.Some? && rest.Some? && TextLe(d.value, rest.value) {
        assert TextLe(ms[0].division.value, rest.value);
      }
      if d.Some? && rest.None? {
        TextLeRefl(d.value);
      }
      if d.Some? && !(rest.Some? && TextLe(d.value, rest.value)) {
        TextLeRefl(d.value);
      }
    }
  }

  lemma {:induction false} TextLeRefl(a: string)
    ensures TextLe(a, a)
  {
    if a != [] {
      TextLeRefl(a[1..]);
    }
  }

  /** The distinct non-NULL division names, whose number is `COUNT(DISTINCT fmp.division_name)`. */
  function Divisions(ms: seq<MatchRow>): set<string>
  {
    set i | 0 <= i < |ms| && ms[i].division.Some? :: ms[i].division.value
  }

  /** A `fact_squad_performance` row. */
  datatype Squad = Squad(key: SquadKey, members: seq<MatchRow>, membersCount: nat,
                         totalRaw: Option<int>, totalTotal: Option<int>, totalPen: Option<int>,
                         division: Option<string>, isMixed: bool, hasGhost: bool)

  /**
   * One squad: the members with `rn <= 4` after numbering a partition's
   * eligible rows by ascending total. Rows with equal totals are numbered in
   * an order SQL leaves open; the model takes them in table order.
   */
  function SquadOf(k: SquadKey, eligible: seq<MatchRow>): Squad
  {
    var top := TopFour(eligible);
    var division := MaxDivision(top);
    Squad(k, top, |top|, SqlSum(top, MatchRaw), SqlSum(top, MatchTotal), SqlSum(top, MatchPen), division,
          |Divisions(top)| > 1, division == Some("Rookie") && |top| < 4)
  }

  /** `WHERE fmp.rn <= 4`: the first four rows by ascending total. */
  function TopFour(eligible: seq<MatchRow>): seq<MatchRow>
  {
    var ranked := SortBy(eligible, TotalKey);
    ranked[..if |ranked| < 4 then |ranked| else 4]
  }

  function MatchRaw(r: MatchRow): Option<int> { r.raw }
  function MatchTotal(r: MatchRow): Option<int> { r.total }
  function MatchPen(r: MatchRow): Option<int> { r.pen }

  /** The partitions that have at least one eligible row. */
  function Partitions(rows: seq<MatchRow>): set<SquadKey>
  {
    set i | 0 <= i < |rows| && Eligible(rows[i]) :: SquadKeyOf(rows[i])
  }

  /**
   * The table after `aggregate_squad_performance`: one squad per partition
   * whose team and discipline exist in `dim_team` and `dim_discipline`
   * (the inner joins). The number of entries is the row count returned.
   */
  function SquadTable(rows: seq<MatchRow>, teams: set<int>, discs: set<int>): map<SquadKey, Squad>
  {
    map k | k in Partitions(rows) && k.team in teams && k.disc in discs :: SquadOf(k, Members(rows, k))
  }

  /** `top` holds rows of `eligible` none of whose totals exceeds that of a row left out. */
  ghost predicate Lowest(top: seq<MatchRow>, eligible: seq<MatchRow>)
  {
    exists rest: seq<MatchRow> ::
      multiset(top) + multiset(rest) == multiset(eligible) &&
      forall i, j :: 0 <= i < |top| && 0 <= j < |rest| ==> TotalKey(top[i]) <= TotalKey(rest[j])
  }

  /** `rn <= 4` keeps the four (or fewer) rows with the lowest totals. */
  lemma TopFourLowest(eligible: seq<MatchRow>)
    ensures var top := TopFour(eligible);
            |top| == (if |eligible| < 4 then |eligible| else 4) &&
            (forall m :: m in top ==> m in eligible) &&
            Lowest(top, eligible)
  {
    var ranked := SortBy(eligible, TotalKey);
    var n := if |ranked| < 4 then |ranked| else 4;
    var top, rest := ranked[..n], ranked[n..];
    assert TopFour(eligible) == top;
    assert multiset(ranked) == multiset(eligible) && SortedBy(ranked, TotalKey) by {
      SortByPermutes(eligible, TotalKey);
    }
    assert multiset(top) + multiset(rest) == multiset(eligible) &&
           forall i, j :: 0 <= i < |top| && 0 <= j < |rest| ==> TotalKey(top[i]) <= TotalKey(rest[j]) by {
      SortedCut(ranked, TotalKey, n);
    }
    assert forall m :: m in top ==> m in eligible by {
      PermutedPiece(ranked, eligible, n);
    }
  }

  /**
   * A squad is made of the four (or fewer) eligible rows of its partition
   * with the lowest totals.
   */
  lemma SquadTopFour(rows: seq<MatchRow>, k: SquadKey)
    ensures var eligible := Members(rows, k);
            var sq := SquadOf(k, eligible);
            sq.membersCount == |sq.members| == (if |eligible| < 4 then |eligible| else 4) &&
            (forall m :: m in sq.members ==> m in rows && SquadKeyOf(m) == k && Eligible(m)) &&
            Lowest(sq.members, eligible)
  {
    TopFourLowest(Members(rows, k));
  }

  /** Every squad in the table belongs to a partition with an eligible row, and has 1 to 4 members. */
  lemma SquadTableSizes(rows: seq<MatchRow>, teams: set<int>, discs: set<int>, k: SquadKey)
    requires k in SquadTable(rows, teams, discs)
    ensures 1 <= SquadTable(rows, teams, discs)[k].membersCount <= 4
    ensures k.team in teams && k.disc in discs
  {
    var i :| 0 <= i < |rows| && Eligible(rows[i]) && SquadKeyOf(rows[i]) == k;
    assert rows[i] in Members(rows, k);
  }

  /** `COUNT(DISTINCT division_name) > 1`: two rows have different non-NULL division names. */
  lemma MixedMeaning(ms: seq<MatchRow>)
    ensures |Divisions(ms)| > 1 <==>
              exists i, j :: 0 <= i < |ms| && 0 <= j < |ms| && ms[i].division.Some? && ms[j].division.Some? &&
                             ms[i].division.value != ms[j].division.value
  {
    var ds := Divisions(ms);
    if |ds| > 1 {
      var a :| a in ds;
      assert |ds - {a}| > 0;
      var b :| b in ds - {a};
      var i :| 0 <= i < |ms| && ms[i].division.Some? && ms[i].division.value == a;
      var j :| 0 <= j < |ms| && ms[j].division.Some? && ms[j].division.value == b;
    }
    if exists i, j :: 0 <= i < |ms| && 0 <= j < |ms| && ms[i].division.Some? && ms[j].division.Some? &&
                      ms[i].division.value != ms[j].division.value {
      var i, j :| 0 <= i < |ms| && 0 <= j < |ms| && ms[i].division.Some? && ms[j].division.Some? &&
                  ms[i].division.value != ms[j].division.value;
      var pair := {ms[i].division.value, ms[j].division.value};
      assert pair <= ds;
      assert |pair| == 2;
      SubsetSize(pair, ds);
    }
  }

  lemma {:induction false} SubsetSize<T>(a: set<T>, b: set<T>)
    requires a <= b
    ensures |a| <= |b|
    decreases |a|
  {
    if a != {} {
      var x :| x in a;
      SubsetSize(a - {x}, b - {x});
    }
  }

  /**
   * `has_ghost_athletes`: a squad only flags ghost athletes when a member
   * is in the Rookie division; when every member is, it flags exactly a
   * squad of fewer than four.
   */
  lemma GhostMeaning(k: SquadKey, eligible: seq<MatchRow>)
    ensures var sq := SquadOf(k, eligible);
            (sq.hasGhost ==> sq.membersCount < 4 && exists i :: 0 <= i < |sq.members| && sq.members[i].division == Some("Rookie")) &&
            (sq.members != [] && (forall i :: 0 <= i < |sq.members| ==> sq.members[i].division == Some("Rookie")) ==>
               (sq.hasGhost <==> sq.membersCount < 4))
  {
    var sq := SquadOf(k, eligible);
    var ms := sq.members;
    MaxDivisionMeaning(ms);
    assert sq.hasGhost == (MaxDivision(ms) == Some("Rookie") && |ms| < 4);
    if ms != [] && forall i :: 0 <= i < |ms| ==> ms[i].division == Some("Rookie") {
      assert ms[0].division.Some?;
      var i :| 0 <= i < |ms| && ms[i].division == MaxDivision(ms);
    }
  }

  /** SQL `SUM` is NULL exactly when every value is NULL. */
  lemma {:induction false} SqlSumNull(ms: seq<MatchRow>, f: MatchRow -> Option<int>)
    ensures SqlSum(ms, f).None? <==> forall i :: 0 <= i < |ms| ==> f(ms[i]).None?
  {
    if ms != [] {
      SqlSumNull(ms[1..], f);
      assert forall i :: 1 <= i < |ms| ==> ms[i] == ms[1..][i - 1];
    }
  }
}
