/**
 * `scripts/silver/etl_rankings.py`: the individual and squad rankings.
 *
 * The two INSERT … SELECT statements are declarative SQL; they are modelled
 * as functions from the warehouse tables they read to the rows they insert,
 * keyed by `(competition, athlete or team, discipline)`, the grouping each
 * statement makes unique. `RankingsEtl` holds the two ranking tables and
 * runs the statements over them. The connection is in autocommit mode, so
 * each statement takes effect on its own: whether the database refuses one
 * is an oracle, and a refusal leaves the earlier statements' effects in place.
 *
 * Times are NUMERIC columns, modelled as integers in thousandths of a
 * second; an average is the exact fraction `sum / count`. `PERCENT_RANK()`
 * is compared and rounded as the exact fraction it approximates.
 */
module Rankings {
  import opened Wrappers
  import StableSort
  import PyText

  // ---------------------------------------------------------------------------
  // The tables the statements read
  // ---------------------------------------------------------------------------

  /** A `fact_stage_performance` row as the individual query reads it. */
  datatype StagePerf = StagePerf(comp: int, athlete: int, disc: int, total: Option<int>)

  /** A `fact_squad_performance` row as the squad query reads it. */
  datatype SquadPerf = SquadPerf(comp: int, team: int, disc: int, athlete: Option<int>, total: Option<int>)

  datatype Athlete = Athlete(gender: Option<string>, classKey: Option<int>, fname: Option<string>, lname: Option<string>)

  datatype Classification = Classification(divisionName: Option<string>, classificationName: Option<string>)

  datatype Team = Team(name: Option<string>, classKey: Option<int>)

  /** The fact tables and the dimensions joined to them, by primary key; a discipline maps to its name. */
  datatype Warehouse = Warehouse(stagePerf: seq<StagePerf>, squadPerf: seq<SquadPerf>, athletes: map<int, Athlete>,
                                 classes: map<int, Classification>, teams: map<int, Team>,
                                 disciplines: map<int, Option<string>>)

  /** `(competition_key, athlete_key or team_key, discipline_key)`. */
  datatype Key = Key(comp: int, subject: int, disc: int)

  /** `AVG` of NUMERIC values: the exact fraction `sum / count`. */
  datatype Avg = Avg(sum: int, count: nat)

  // ---------------------------------------------------------------------------
  // SQL building blocks
  // ---------------------------------------------------------------------------

  /** `if competition_key:` adds `WHERE … competition_key = %s` for a truthy key only. */
  predicate Selects(key: Option<int>, comp: int)
  {
    !(key.Some? && key.value != 0) || comp == key.value
  }

  /** `ORDER BY t ASC`: ascending, NULLs after every value. */
  predicate Before(a: Option<int>, b: Option<int>)
  {
    a.Some? && (b.None? || a.value < b.value)
  }

  /** SQL `MIN`, which skips NULLs: NULL when every value is NULL. */
  function SqlMin(ts: seq<Option<int>>): Option<int>
    decreases |ts|
  {
    if ts == [] then None
    else
      var rest := SqlMin(ts[1..]);
      if ts[0].None? then rest
      else if rest.None? || ts[0].value <= rest.value then ts[0]
      else rest
  }

  /** SQL `SUM`, which skips NULLs: NULL when every value is NULL. */
  function SqlSum(ts: seq<Option<int>>): (r: Option<int>)
    ensures r.Some? <==> CountSome(ts) > 0
    decreases |ts|
  {
    if ts == [] then None
    else
      var rest := SqlSum(ts[1..]);
      if ts[0].None? then rest
      else Some(ts[0].value + if rest.Some? then rest.value else 0)
  }

  function CountSome(ts: seq<Option<int>>): (n: nat)
    ensures n <= |ts|
    decreases |ts|
  {
    if ts == [] then 0 else (if ts[0].Some? then 1 else 0) + CountSome(ts[1..])
  }

  /** SQL `AVG`: the sum of the non-NULL values over their number, NULL when there is none. */
  function SqlAvg(ts: seq<Option<int>>): (r: Option<Avg>)
    ensures r.Some? ==> r.value.count > 0
  {
    var s := SqlSum(ts);
    if s.None? then None else Some(Avg(s.value, CountSome(ts)))
  }

  /** `CONCAT(…)`: NULL arguments count as empty text. */
  function Concat(parts: seq<Option<string>>): string
    decreases |parts|
  {
    if parts == [] then "" else (if parts[0].Some? then parts[0].value else "") + Concat(parts[1..])
  }

  predicate IsAlnum(c: char)
  {
    'a' <= c <= 'z' || 'A' <= c <= 'Z' || '0' <= c <= '9'
  }

  /** `INITCAP(s)`: the first letter of each alphanumeric run in upper case, the rest in lower case. */
  function InitCapFrom(s: string, inWord: bool): (r: string)
    ensures |r| == |s|
    decreases |s|
  {
    if s == [] then ""
    else
      var c := if inWord then PyText.LowerChar(s[0]) else PyText.UpperChar(s[0]);
      [c] + InitCapFrom(s[1..], IsAlnum(s[0]))
  }

  function InitCap(s: Option<string>): Option<string>
  {
    if s.None? then None else Some(InitCapFrom(s.value, false))
  }

  /** `COALESCE(dc.division_name, 'Open')` through `LEFT JOIN dim_classification`. */
  function DivisionOf(w: Warehouse, classKey: Option<int>): (r: string)
    ensures r == "Open" <==> classKey.None? || classKey.value !in w.classes ||
                             w.classes[classKey.value].divisionName.None? ||
                             w.classes[classKey.value].divisionName == Some("Open")
  {
    if classKey.Some? && classKey.value in w.classes && w.classes[classKey.value].divisionName.Some? then
      w.classes[classKey.value].divisionName.value
    else "Open"
  }

  /** `dc.classification_name` through `LEFT JOIN dim_classification`. */
  function ClassNameOf(w: Warehouse, classKey: Option<int>): Option<string>
  {
    if classKey.Some? && classKey.value in w.classes then w.classes[classKey.value].classificationName else None
  }

  // ---------------------------------------------------------------------------
  // Window functions over one partition
  // ---------------------------------------------------------------------------

  /** `DENSE_RANK()`: 1 + the number of distinct values of the partition ordered before `v`. */
  function DenseRank(part: map<Key, Option<int>>, v: Option<int>): nat
  {
    1 + |set k | k in part && Before(part[k], v) :: part[k]|
  }

  /** `RANK()`: 1 + the number of rows of the partition ordered before `v`. */
  function RowRank(part: map<Key, Option<int>>, v: Option<int>): nat
  {
    1 + |set k | k in part && Before(part[k], v)|
  }

  /** `PERCENT_RANK() * 100 <= b`: `(RANK() - 1) / (rows - 1)`, which is 0 for a single row. */
  predicate PercentAtMost(part: map<Key, Option<int>>, v: Option<int>, b: int)
  {
    |part| <= 1 || 100 * (RowRank(part, v) - 1) <= b * (|part| - 1)
  }

  /** `ROUND((PERCENT_RANK() * 100)::numeric, 2)`, in hundredths; halves round up. */
  function Percentile(part: map<Key, Option<int>>, v: Option<int>): int
  {
    if |part| <= 1 then 0 else (20000 * (RowRank(part, v) - 1) + (|part| - 1)) / (2 * (|part| - 1))
  }

  /** Lines 137-145 and 264-272: the award for a rank, the places labelled with `suffix`. */
  function Award(rank: nat, top10: bool, top25: bool, suffix: string): (r: Option<string>)
    ensures r.None? <==> rank > 5 && !top10 && !top25
    ensures rank == 1 ==> r == Some("1st Place" + suffix)
    ensures rank == 2 ==> r == Some("2nd Place" + suffix)
    ensures rank == 3 ==> r == Some("3rd Place" + suffix)
    ensures 3 < rank <= 5 ==> r == Some("Top 5")
    ensures rank > 5 ==> r == (if top10 then Some("Top 10%") else if top25 then Some("Top 25%") else None)
  {
    if rank == 1 then Some("1st Place" + suffix)
    else if rank == 2 then Some("2nd Place" + suffix)
    else if rank == 3 then Some("3rd Place" + suffix)
    else if rank <= 5 then Some("Top 5")
    else if top10 then Some("Top 10%")
    else if top25 then Some("Top 25%")
    else None
  }

  // ---------------------------------------------------------------------------
  // calculate_individual_rankings
  // ---------------------------------------------------------------------------

  /** The stage rows passing the competition filter and the inner join with `dim_athlete`, in table order. */
  function StageRows(rows: seq<StagePerf>, athletes: map<int, Athlete>, key: Option<int>): (r: seq<StagePerf>)
    ensures forall x :: x in r <==> x in rows && Selects(key, x.comp) && x.athlete in athletes
    decreases |rows|
  {
    if rows == [] then []
    else
      var rest := StageRows(rows[1..], athletes, key);
      assert forall x :: x in rows <==> x == rows[0] || x in rows[1..];
      (if Selects(key, rows[0].comp) && rows[0].athlete in athletes then [rows[0]] else []) + rest
  }

  function StageKey(r: StagePerf): Key
  {
    Key(r.comp, r.athlete, r.disc)
  }

  /** The stage times of one `GROUP BY` group, in table order. */
  function StageTimes(rows: seq<StagePerf>, k: Key): (ts: seq<Option<int>>)
    ensures |ts| <= |rows|
    ensures forall t :: t in ts ==> exists r :: r in rows && StageKey(r) == k && r.total == t
    decreases |rows|
  {
    if rows == [] then []
    else
      var rest := StageTimes(rows[1..], k);
      assert forall r :: r in rows[1..] ==> r in rows;
      (if StageKey(rows[0]) == k then [rows[0].total] else []) + rest
  }

  /** An `athlete_performance` row. */
  datatype Perf = Perf(gender: Option<string>, classification: string, best: Option<int>, avg: Option<Avg>, stages: nat)

  function PerfOf(w: Warehouse, rows: seq<StagePerf>, k: Key): Perf
    requires k.subject in w.athletes
  {
    var a := w.athletes[k.subject];
    var ts := StageTimes(rows, k);
    Perf(a.gender, DivisionOf(w, a.classKey), SqlMin(ts), SqlAvg(ts), |ts|)
  }

  /** Lines 72-89: one row per competition, athlete and discipline of the selected stage rows. */
  function Performances(w: Warehouse, key: Option<int>): (perfs: map<Key, Perf>)
    ensures forall k :: k in perfs ==> Selects(key, k.comp) && k.subject in w.athletes
  {
    var rows := StageRows(w.stagePerf, w.athletes, key);
    map k | k in (set r | r in rows :: StageKey(r)) && k.subject in w.athletes :: PerfOf(w, rows, k)
  }

  /** `PARTITION BY competition_key, classification, gender, discipline_key`, with each row's best time. */
  function Peers(perfs: map<Key, Perf>, k: Key): (part: map<Key, Option<int>>)
    requires k in perfs
    ensures k in part && part[k] == perfs[k].best
  {
    map j | j in perfs && j.comp == k.comp && perfs[j].classification == perfs[k].classification &&
            perfs[j].gender == perfs[k].gender && j.disc == k.disc :: perfs[j].best
  }

  /** A `rankings_individual` row, apart from its key. */
  datatype IndividualRanking = IndividualRanking(
    classKey: Option<int>, category: string, classification: string, gender: Option<string>,
    discipline: Option<string>, athleteName: string, best: Option<int>, avg: Option<Avg>, stages: nat,
    rank: nat, total: nat, percentile: int, award: Option<string>, hoaWinner: bool)

  function IndividualRow(w: Warehouse, perfs: map<Key, Perf>, k: Key): IndividualRanking
    requires k in perfs && k.subject in w.athletes && k.disc in w.disciplines
  {
    var p, a, d := perfs[k], w.athletes[k.subject], w.disciplines[k.disc];
    var part := Peers(perfs, k);
    var rank := DenseRank(part, p.best);
    IndividualRanking(a.classKey, Concat([Some(p.classification), Some(" "), InitCap(p.gender), Some(" "), d]),
                      p.classification, p.gender, d, Concat([a.fname, Some(" "), a.lname]), p.best, p.avg, p.stages,
                      rank, |part|, Percentile(part, p.best),
                      Award(rank, PercentAtMost(part, p.best, 10), PercentAtMost(part, p.best, 25), " HOA"), rank == 1)
  }

  /** Lines 107-153: the rows inserted, ranked before the inner join with `dim_discipline`. */
  function IndividualRankings(w: Warehouse, key: Option<int>): (r: map<Key, IndividualRanking>)
    ensures forall k :: k in r ==> Selects(key, k.comp) && k.disc in w.disciplines
  {
    var perfs := Performances(w, key);
    map k | k in perfs && k.disc in w.disciplines :: IndividualRow(w, perfs, k)
  }

  // ---------------------------------------------------------------------------
  // calculate_squad_rankings
  // ---------------------------------------------------------------------------

  function SquadRows(rows: seq<SquadPerf>, key: Option<int>): (r: seq<SquadPerf>)
    ensures forall x :: x in r <==> x in rows && Selects(key, x.comp)
    decreases |rows|
  {
    if rows == [] then []
    else
      var rest := SquadRows(rows[1..], key);
      assert forall x :: x in rows <==> x == rows[0] || x in rows[1..];
      (if Selects(key, rows[0].comp) then [rows[0]] else []) + rest
  }

  function SquadKey(r: SquadPerf): Key
  {
    Key(r.comp, r.team, r.disc)
  }

  /** The rows of one `PARTITION BY competition_key, team_key, discipline_key`, in table order. */
  function Members(rows: seq<SquadPerf>, k: Key): (ms: seq<SquadPerf>)
    ensures forall r :: r in ms <==> r in rows && SquadKey(r) == k
    decreases |rows|
  {
    if rows == [] then []
    else
      var rest := Members(rows[1..], k);
      assert forall x :: x in rows <==> x == rows[0] || x in rows[1..];
      (if SquadKey(rows[0]) == k then [rows[0]] else []) + rest
  }

  function Timed(ms: seq<SquadPerf>): (r: seq<SquadPerf>)
    ensures forall i :: 0 <= i < |r| ==> r[i].total.Some?
    decreases |ms|
  {
    if ms == [] then [] else (if ms[0].total.Some? then [ms[0]] else []) + Timed(ms[1..])
  }

  function Untimed(ms: seq<SquadPerf>): (r: seq<SquadPerf>)
    ensures forall i :: 0 <= i < |r| ==> r[i].total.None?
    decreases |ms|
  {
    if ms == [] then [] else (if ms[0].total.None? then [ms[0]] else []) + Untimed(ms[1..])
  }

  function TimeKey(r: SquadPerf): int
  {
    if r.total.Some? then r.total.value else 0
  }

  /**
   * Lines 181-184: the members in `ROW_NUMBER()` order, ascending times with
   * NULLs last. SQL leaves the order of equal times open; the model keeps
   * their table order.
   */
  function Numbered(ms: seq<SquadPerf>): seq<SquadPerf>
  {
    StableSort.SortBy(Timed(ms), TimeKey) + Untimed(ms)
  }

  function Min4(n: nat): nat
  {
    if n < 4 then n else 4
  }

  /** Line 209: `WHERE member_rank <= 4`. */
  function TopFour(ms: seq<SquadPerf>): seq<SquadPerf>
  {
    var numbered := Numbered(ms);
    numbered[..Min4(|numbered|)]
  }

  function Times(ms: seq<SquadPerf>): (ts: seq<Option<int>>)
    ensures |ts| == |ms| && forall i :: 0 <= i < |ms| ==> ts[i] == ms[i].total
  {
    seq(|ms|, i requires 0 <= i < |ms| => ms[i].total)
  }

  /** A `squad_performance` row: the top four's total, average, count and members in order. */
  datatype SquadPerformance = SquadPerformance(total: Option<int>, avg: Option<Avg>, count: nat, members: seq<SquadPerf>)

  function SquadOf(ms: seq<SquadPerf>): SquadPerformance
  {
    var top := TopFour(ms);
    SquadPerformance(SqlSum(Times(top)), SqlAvg(Times(top)), |top|, top)
  }

  /** Lines 173-211: one squad per competition, team and discipline of the selected rows. */
  function SquadPerformances(w: Warehouse, key: Option<int>): (sps: map<Key, SquadPerformance>)
    ensures forall k :: k in sps ==> Selects(key, k.comp)
  {
    var rows := SquadRows(w.squadPerf, key);
    map k | k in (set r | r in rows :: SquadKey(r)) :: SquadOf(Members(rows, k))
  }

  /** `PARTITION BY competition_key, dc.classification_name, discipline_key` over the squads whose team exists. */
  function SquadPeers(w: Warehouse, sps: map<Key, SquadPerformance>, k: Key): (part: map<Key, Option<int>>)
    requires k in sps && k.subject in w.teams
    ensures k in part && part[k] == sps[k].total
  {
    var cls := ClassNameOf(w, w.teams[k.subject].classKey);
    map j | j in sps && j.subject in w.teams && j.comp == k.comp && j.disc == k.disc &&
            ClassNameOf(w, w.teams[j.subject].classKey) == cls :: sps[j].total
  }

  /** A `rankings_squad` row, apart from its key; `members` gives the `member<i>` columns in order. */
  datatype SquadRanking = SquadRanking(
    classKey: Option<int>, category: string, division: string, discipline: Option<string>, squadName: string,
    membersCount: nat, total: Option<int>, avg: Option<Avg>, rank: nat, totalSquads: nat, percentile: int,
    award: Option<string>, divisionWinner: bool, complete: bool, members: seq<SquadPerf>)

  function SquadRow(w: Warehouse, sps: map<Key, SquadPerformance>, k: Key): SquadRanking
    requires k in sps && k.subject in w.teams && k.disc in w.disciplines
  {
    var sp, t, d := sps[k], w.teams[k.subject], w.disciplines[k.disc];
    var division := DivisionOf(w, t.classKey);
    var part := SquadPeers(w, sps, k);
    var rank := DenseRank(part, sp.total);
    SquadRanking(t.classKey, Concat([Some(division), Some(" Division "), d]), division, d,
                 Concat([t.name, Some(" - "), d]), sp.count, sp.total, sp.avg, rank, |part|,
                 Percentile(part, sp.total),
                 Award(rank, PercentAtMost(part, sp.total, 10), PercentAtMost(part, sp.total, 25), ""),
                 rank == 1, sp.count == 4, sp.members)
  }

  /** Lines 232-289: the rows inserted, for squads whose team and discipline exist. */
  function SquadRankings(w: Warehouse, key: Option<int>): (r: map<Key, SquadRanking>)
    ensures forall k :: k in r ==> Selects(key, k.comp) && k.subject in w.teams && k.disc in w.disciplines
  {
    var sps := SquadPerformances(w, key);
    map k | k in sps && k.subject in w.teams && k.disc in w.disciplines :: SquadRow(w, sps, k)
  }

  // ---------------------------------------------------------------------------
  // clear_rankings
  // ---------------------------------------------------------------------------

  /** Lines 45-58: a truthy key deletes that competition's rows; otherwise every row goes. */
  function Cleared<V>(m: map<Key, V>, key: Option<int>): (r: map<Key, V>)
    ensures forall k :: k in r <==> k in m && key.Some? && key.value != 0 && k.comp != key.value
    ensures forall k :: k in r ==> r[k] == m[k]
  {
    if key.Some? && key.value != 0 then map k | k in m && k.comp != key.value :: m[k] else map[]
  }

  // ---------------------------------------------------------------------------
  // Properties
  // ---------------------------------------------------------------------------

  /** Line 80: the best time is the smallest non-NULL stage time, NULL only when every time is NULL. */
  lemma {:induction false} SqlMinIsMinimum(ts: seq<Option<int>>)
    ensures SqlMin(ts).None? <==> forall i :: 0 <= i < |ts| ==> ts[i].None?
    ensures SqlMin(ts).Some? ==> SqlMin(ts) in ts
    ensures forall i :: 0 <= i < |ts| && ts[i].Some? ==> SqlMin(ts).Some? && SqlMin(ts).value <= ts[i].value
    decreases |ts|
  {
    if ts != [] {
      SqlMinIsMinimum(ts[1..]);
      assert forall i :: 1 <= i < |ts| ==> ts[i] == ts[1..][i - 1];
    }
  }

  /** A row ranks first exactly when no row of its partition is ordered before it. */
  lemma DenseRankFirst(part: map<Key, Option<int>>, v: Option<int>)
    ensures DenseRank(part, v) == 1 <==> forall k :: k in part ==> !Before(part[k], v)
  {
    var below := set k | k in part && Before(part[k], v) :: part[k];
    if exists k :: k in part && Before(part[k], v) {
      var k :| k in part && Before(part[k], v);
      assert part[k] in below;
    }
  }

  /** Ties share a rank; a row ordered before another ranks strictly higher (dense ranking). */
  lemma DenseRankOrder(part: map<Key, Option<int>>, a: Key, b: Key)
    requires a in part && b in part && Before(part[a], part[b])
    ensures DenseRank(part, part[a]) < DenseRank(part, part[b])
  {
    var va, vb := part[a], part[b];
    var below := set k | k in part && Before(part[k], va) :: part[k];
    var belowB := set k | k in part && Before(part[k], vb) :: part[k];
    assert below <= belowB;
    assert va in belowB - below;
    assert |belowB| == |below| + |belowB - below|;
  }

  /** A row's dense rank is at most the number of rows of its partition. */
  lemma DenseRankBound(part: map<Key, Option<int>>, a: Key)
    requires a in part
    ensures 1 <= DenseRank(part, part[a]) <= |part|
  {
    var v := part[a];
    var keys := set k | k in part && Before(part[k], v);
    var below := set k | k in part && Before(part[k], v) :: part[k];
    ImageSize(keys, part);
    assert below == (set k | k in keys :: part[k]);
    assert keys <= part.Keys - {a};
    SubsetSize(keys, part.Keys - {a});
  }

  /** `PERCENT_RANK() * 100` lies between 0 and 100, and is 0 for the rows ordered first. */
  lemma PercentileRange(part: map<Key, Option<int>>, a: Key)
    requires a in part
    ensures 0 <= Percentile(part, part[a]) <= 10000
    ensures (forall k :: k in part ==> !Before(part[k], part[a])) ==> Percentile(part, part[a]) == 0
  {
    var keys := set k | k in part && Before(part[k], part[a]);
    assert keys <= part.Keys - {a};
    SubsetSize(keys, part.Keys - {a});
    if forall k :: k in part ==> !Before(part[k], part[a]) {
      assert keys == {};
    }
    if |part| > 1 {
      HalfUpBound(RowRank(part, part[a]) - 1, |part| - 1);
    }
  }

  lemma HalfUpBound(x: int, n: int)
    requires 0 <= x <= n && n > 0
    ensures 0 <= (20000 * x + n) / (2 * n) <= 10000
  {
    var y, d := 20000 * x + n, 2 * n;
    assert y < d * 10001;
    var q := y / d;
    assert d * q + y % d == y && 0 <= y % d;
    if q < 0 {
      MulMono(d, q, -1);
    }
    if q > 10000 {
      MulMono(d, 10001, q);
    }
  }

  lemma MulMono(d: int, a: int, b: int)
    requires d >= 0 && a <= b
    ensures d * a <= d * b
  {
    assert d * b - d * a == d * (b - a);
  }

  lemma {:induction false} ImageSize(keys: set<Key>, part: map<Key, Option<int>>)
    requires keys <= part.Keys
    ensures |set k | k in keys :: part[k]| <= |keys|
    decreases |keys|
  {
    if keys != {} {
      var x :| x in keys;
      ImageSize(keys - {x}, part);
      assert (set k | k in keys :: part[k]) == (set k | k in keys - {x} :: part[k]) + {part[x]};
    }
  }

  lemma {:induction false} SubsetSize<T>(a: set<T>, b: set<T>)
    requires a <= b
    ensures |a| <= |b|
    decreases |a|
  {
    if a != {} {
      var x :| x in a;
      SubsetSize(a - {x}, b - {x});
    }
  }

  /** Line 148: an athlete is the HOA winner exactly when no athlete of the category has a better time. */
  lemma HoaWinnerFastest(w: Warehouse, key: Option<int>, k: Key)
    requires k in IndividualRankings(w, key)
    ensures var perfs := Performances(w, key);
            IndividualRankings(w, key)[k].hoaWinner <==>
              forall j :: j in Peers(perfs, k) ==> !Before(Peers(perfs, k)[j], perfs[k].best)
  {
    var perfs := Performances(w, key);
    DenseRankFirst(Peers(perfs, k), perfs[k].best);
  }

  /** An athlete of the category with a faster best time ranks strictly higher. */
  lemma FasterRanksHigher(w: Warehouse, key: Option<int>, a: Key, b: Key)
    requires a in IndividualRankings(w, key) && b in IndividualRankings(w, key)
    requires var perfs := Performances(w, key);
             b in Peers(perfs, a) && Before(perfs[b].best, perfs[a].best)
    ensures IndividualRankings(w, key)[b].rank < IndividualRankings(w, key)[a].rank
  {
    var perfs := Performances(w, key);
    assert Peers(perfs, b) == Peers(perfs, a);
    DenseRankOrder(Peers(perfs, a), b, a);
  }

  /** An athlete's rank lies between 1 and the number of athletes of the category. */
  lemma RankWithinCategory(w: Warehouse, key: Option<int>, k: Key)
    requires k in IndividualRankings(w, key)
    ensures var r := IndividualRankings(w, key)[k]; 1 <= r.rank <= r.total
  {
    var perfs := Performances(w, key);
    DenseRankBound(Peers(perfs, k), k);
  }

  /** Line 79: an athlete without a division name is ranked as 'Open'. */
  lemma MissingDivisionIsOpen(w: Warehouse, key: Option<int>, k: Key)
    requires k in IndividualRankings(w, key)
    requires var c := w.athletes[k.subject].classKey; c.None? || c.value !in w.classes
    ensures IndividualRankings(w, key)[k].classification == "Open"
  {
  }

  /** Given a truthy competition key, every inserted row belongs to that competition. */
  lemma RankingsOfCompetition(w: Warehouse, c: int)
    requires c != 0
    ensures forall k :: k in IndividualRankings(w, Some(c)) ==> k.comp == c
    ensures forall k :: k in SquadRankings(w, Some(c)) ==> k.comp == c
  {
  }

  lemma {:induction false} TimedUntimed(ms: seq<SquadPerf>)
    ensures multiset(Timed(ms)) + multiset(Untimed(ms)) == multiset(ms)
    decreases |ms|
  {
    if ms != [] {
      TimedUntimed(ms[1..]);
      var t, u := (if ms[0].total.Some? then [ms[0]] else []), (if ms[0].total.None? then [ms[0]] else []);
      assert Timed(ms) == t + Timed(ms[1..]) && Untimed(ms) == u + Untimed(ms[1..]);
      assert multiset(t) + multiset(u) == multiset{ms[0]};
      assert ms == [ms[0]] + ms[1..];
    }
  }

  /**
   * Lines 181-184 and 209: a squad is at most four of its members, as many
   * as there are up to four, and no member left out has a time ordered
   * before a member kept (NULL times last).
   */
  lemma TopFourLowest(ms: seq<SquadPerf>)
    ensures var numbered := Numbered(ms);
            var n := Min4(|ms|);
            var top := TopFour(ms);
            |numbered| == |ms| && |top| == n && top == numbered[..n] &&
            multiset(numbered) == multiset(ms) &&
            forall i, j :: 0 <= i < n <= j < |numbered| ==> !Before(numbered[j].total, numbered[i].total)
  {
    var timed := StableSort.SortBy(Timed(ms), TimeKey);
    var numbered := Numbered(ms);
    StableSort.SortByPermutes(Timed(ms), TimeKey);
    TimedUntimed(ms);
    assert |numbered| == |ms| by {
      assert |multiset(numbered)| == |multiset(ms)|;
    }
    var n := Min4(|ms|);
    forall i, j | 0 <= i < n <= j < |numbered|
      ensures !Before(numbered[j].total, numbered[i].total)
    {
      if j < |timed| {
        assert numbered[i] == timed[i] && numbered[j] == timed[j];
        assert timed[i] in multiset(Timed(ms)) && timed[j] in multiset(Timed(ms));
        assert TimeKey(timed[i]) <= TimeKey(timed[j]);
      } else {
        assert numbered[j] == Untimed(ms)[j - |timed|];
      }
    }
  }

  /** Line 278: a squad is complete exactly when its partition has at least four rows. */
  lemma CompleteSquad(w: Warehouse, key: Option<int>, k: Key)
    requires k in SquadRankings(w, key)
    ensures var rows := SquadRows(w.squadPerf, key);
            SquadRankings(w, key)[k].complete <==> |Members(rows, k)| >= 4
  {
    TopFourLowest(Members(SquadRows(w.squadPerf, key), k));
  }

  /** Line 275: a squad wins its division exactly when no squad of the partition has a better total. */
  lemma DivisionWinnerFastest(w: Warehouse, key: Option<int>, k: Key)
    requires k in SquadRankings(w, key)
    ensures var sps := SquadPerformances(w, key);
            SquadRankings(w, key)[k].divisionWinner <==>
              forall j :: j in SquadPeers(w, sps, k) ==> !Before(SquadPeers(w, sps, k)[j], sps[k].total)
  {
    var sps := SquadPerformances(w, key);
    DenseRankFirst(SquadPeers(w, sps, k), sps[k].total);
  }

  /** Clearing for a competition keeps every other competition's rows and removes all of its own. */
  lemma ClearedThenInserted<V>(m: map<Key, V>, inserted: map<Key, V>, c: int)
    requires c != 0 && forall k :: k in inserted ==> k.comp == c
    ensures var r := Cleared(m, Some(c)) + inserted;
            (forall k :: k in m && k.comp != c ==> k in r && r[k] == m[k]) &&
            (forall k :: k in r && k.comp == c ==> k in inserted && r[k] == inserted[k])
  {
  }

  // ---------------------------------------------------------------------------
  // RankingsETL
  // ---------------------------------------------------------------------------

  /** The four statements, for the oracle that says whether the database refuses one. */
  datatype Stmt = ClearIndividual | ClearSquads | InsertIndividual | InsertSquads

  class RankingsEtl {
    var individual: map<Key, IndividualRanking>
    var squads: map<Key, SquadRanking>

    /** Lines 31-41: the ranking tables as the connection finds them. */
    constructor(individual0: map<Key, IndividualRanking>, squads0: map<Key, SquadRanking>)
      ensures individual == individual0 && squads == squads0
    {
      individual := individual0;
      squads := squads0;
    }

    /** `clear_rankings` (lines 43-58): the statements run in order; a refused one raises. */
    method ClearRankings(key: Option<int>, fails: Stmt -> bool) returns (ok: bool)
      modifies this
      ensures ok <==> !fails(ClearIndividual) && !fails(ClearSquads)
      ensures individual == if fails(ClearIndividual) then old(individual) else Cleared(old(individual), key)
      ensures squads == if ok then Cleared(old(squads), key) else old(squads)
    {
      if fails(ClearIndividual) {
        return false;
      }
      individual := Cleared(individual, key);
      if fails(ClearSquads) {
        return false;
      }
      squads := Cleared(squads, key);
      return true;
    }

    /** `calculate_individual_rankings` (lines 60-159): the rows inserted and their number. */
    method CalculateIndividualRankings(w: Warehouse, key: Option<int>, fails: Stmt -> bool) returns (count: Option<nat>)
      modifies this
      ensures squads == old(squads)
      ensures fails(InsertIndividual) ==> count.None? && individual == old(individual)
      ensures !fails(InsertIndividual) ==> individual == old(individual) + IndividualRankings(w, key) &&
                                           count == Some(|IndividualRankings(w, key)|)
    {
      if fails(InsertIndividual) {
        return None;
      }
      var rows := IndividualRankings(w, key);
      individual := individual + rows;
      return Some(|rows|);
    }

    /** `calculate_squad_rankings` (lines 161-295). */
    method CalculateSquadRankings(w: Warehouse, key: Option<int>, fails: Stmt -> bool) returns (count: Option<nat>)
      modifies this
      ensures individual == old(individual)
      ensures fails(InsertSquads) ==> count.None? && squads == old(squads)
      ensures !fails(InsertSquads) ==> squads == old(squads) + SquadRankings(w, key) &&
                                       count == Some(|SquadRankings(w, key)|)
    {
      if fails(InsertSquads) {
        return None;
      }
      var rows := SquadRankings(w, key);
      squads := squads + rows;
      return Some(|rows|);
    }

    /**
     * `run_full_rankings_etl` (lines 297-319): clear, then both inserts. On
     * success the tables hold the other competitions' rows as they were and
     * the new rankings. The connection is in autocommit mode, so a statement
     * that raises leaves every earlier one in place.
     */
    method RunFullRankingsEtl(w: Warehouse, key: Option<int>, fails: Stmt -> bool) returns (counts: Option<(nat, nat)>)
      modifies this
      ensures counts.Some? <==> !fails(ClearIndividual) && !fails(ClearSquads) && !fails(InsertIndividual) &&
                                !fails(InsertSquads)
      ensures counts.Some? ==> individual == Cleared(old(individual), key) + IndividualRankings(w, key) &&
                               squads == Cleared(old(squads), key) + SquadRankings(w, key) &&
                               counts.value == (|IndividualRankings(w, key)|, |SquadRankings(w, key)|)
      ensures fails(ClearIndividual) ==> individual == old(individual) && squads == old(squads)
      ensures !fails(ClearIndividual) && fails(ClearSquads) ==>
                individual == Cleared(old(individual), key) && squads == old(squads)
      ensures !fails(ClearIndividual) && !fails(ClearSquads) && fails(InsertIndividual) ==>
                individual == Cleared(old(individual), key) && squads == Cleared(old(squads), key)
      ensures !fails(ClearIndividual) && !fails(ClearSquads) && !fails(InsertIndividual) && fails(InsertSquads) ==>
                individual == Cleared(old(individual), key) + IndividualRankings(w, key) &&
                squads == Cleared(old(squads), key)
    {
      var cleared := ClearRankings(key, fails);
      if !cleared {
        return None;
      }
      var n1 := CalculateIndividualRankings(w, key, fails);
      if n1.None? {
        return None;
      }
      var n2 := CalculateSquadRankings(w, key, fails);
      if n2.None? {
        return None;
      }
      return Some((n1.value, n2.value));
    }
  }
}
