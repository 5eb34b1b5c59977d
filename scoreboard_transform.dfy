/**
 * The silver scoreboard transform (src/SilverScoreboardTransform.py): every
 * `raw_scoreboard` payload is flattened into the scoreboard, team,
 * discipline and athlete dimensions, the roster map, one series result per
 * `spp<stage>_<series>` key, one penalty per penalty-like key, and one total
 * per stage an athlete has a series result or a penalty for.
 *
 * Times are thousandths (as in TransformUtils.SafeFloat); `parseFloat` is
 * Python's `float` on a string, None where it raises.
 */
module ScoreboardTransform {
  import opened Wrappers
  import opened Json
  import opened PyText
  import opened Tables
  import TransformUtils

  // ---------------------------------------------------------------------
  // Key patterns
  // ---------------------------------------------------------------------

  /** The length of the run of decimal digits `s` starts with (a greedy `\d+`). */
  function DigitRun(s: string): (n: nat)
    ensures n <= |s| && AllDigits(s[..n])
    ensures n < |s| ==> !IsDigit(s[n])
  {
    if s == [] || !IsDigit(s[0]) then 0
    else
      var n := 1 + DigitRun(s[1..]);
      assert s[..n] == [s[0]] + s[1..][..n - 1];
      n
  }

  /** A series position: `stage_num` and `series_num` of fact_stage_series_result. */
  datatype Position = Position(stage: nat, series: nat)

  /**
   * `re.match(r'^spp(\d+)_(\d+)$', k)` and its two groups as integers. `$`
   * also matches in front of one final newline.
   */
  function SppKey(k: string): Option<Position>
  {
    if StartsWith(k, "spp") then SppGroups(k[3..]) else None
  }

  /** `(\d+)_` and then the series part, after `spp`. */
  function SppGroups(r: string): Option<Position>
  {
    var n1 := DigitRun(r);
    if n1 == 0 || n1 == |r| || r[n1] != '_' then None else SppSeries(DigitsValue(r[..n1]), r[n1 + 1..])
  }

  /** `(\d+)$` after the underscore. */
  function SppSeries(stage: nat, rest: string): Option<Position>
  {
    var n2 := DigitRun(rest);
    if n2 == 0 || !(n2 == |rest| || rest[n2..] == "\n") then None
    else Some(Position(stage, DigitsValue(rest[..n2])))
  }

  /** `re.search(r'(^pen|_pen|pen_|penalty)', k, re.IGNORECASE)`. */
  predicate PenaltyKey(k: string)
  {
    var l := Lower(k);
    StartsWith(l, "pen") || Contains(l, "_pen") || Contains(l, "pen_") || Contains(l, "penalty")
  }

  /** The stage and series a penalty is filed under; 0 and None when the key names none. */
  datatype PenaltyPos = PenaltyPos(stage: nat, series: Option<nat>)

  /** An optional underscore, `_?`. */
  function SkipUnderscore(r: string): (r': string)
    ensures |r'| <= |r|
  {
    if r != [] && r[0] == '_' then r[1..] else r
  }

  /**
   * `_?(\d+)?_?(\d+)?` after the prefix: the first group's digits (stage,
   * 0 when absent) and the second's (series, None when absent).
   */
  function PenaltyGroups(r: string): PenaltyPos
  {
    var r1 := SkipUnderscore(r);
    var n1 := DigitRun(r1);
    PenaltyPos(if n1 == 0 then 0 else DigitsValue(r1[..n1]), PenaltySeries(r1[n1..]))
  }

  /** `_?(\d+)?` after the stage group. */
  function PenaltySeries(r: string): Option<nat>
  {
    var r1 := SkipUnderscore(r);
    var n := DigitRun(r1);
    if n == 0 then None else Some(DigitsValue(r1[..n]))
  }

  /**
   * Lines 126-128 as written: `re.match(r'^(?:pen|penalty)_?(\d+)?_?(\d+)?',
   * k, re.IGNORECASE)`. The alternative `pen` is tried first and everything
   * after it is optional, so it always wins: after `penalty` the groups see
   * `alty…` and capture nothing.
   */
  function PenaltyPosAsWritten(k: string): PenaltyPos
  {
    if StartsWith(Lower(k), "pen") then PenaltyGroups(k[3..]) else PenaltyPos(0, None)
  }

  /**
   * The mapping the comment on line 125 lists (`pen`, `pen1`, `pen1_2`,
   * `penalty_1_2`): the longer prefix `penalty` is taken when present.
   */
  function PenaltyPosOf(k: string): PenaltyPos
  {
    if StartsWith(Lower(k), "penalty") then PenaltyGroups(k[7..])
    else if StartsWith(Lower(k), "pen") then PenaltyGroups(k[3..])
    else PenaltyPos(0, None)
  }

  // ---------------------------------------------------------------------
  // Values
  // ---------------------------------------------------------------------

  /** Python's `float(v)`; None where it raises. */
  function PyFloat(v: Json, parseFloat: string -> Option<int>): Option<int>
  {
    match v
    case JNull => None
    case JStr(s) => if s == "" then None else parseFloat(s)
    case JInt(n) => Some(1000 * n)
    case JBool(b) => Some(if b then 1000 else 0)
    case _ => None
  }

  /** Lines 110-113: `float(v) if v not in (None, '') else None`, None when `float` raises. */
  function SeriesValue(v: Json, parseFloat: string -> Option<int>): Option<int>
  {
    if v == JNull || v == JStr("") then None else PyFloat(v, parseFloat)
  }

  /** SQL `SUM` over a column: NULLs are skipped, and the sum of no values is NULL. */
  function SqlSum(xs: seq<Option<int>>): Option<int>
  {
    if xs == [] then None
    else
      var s := SqlSum(xs[..|xs| - 1]);
      var x := xs[|xs| - 1];
      if x.None? then s else Some(s.GetOr(0) + x.value)
  }

  /** Lines 157-162: the final time, None when both sums are None, otherwise their sum with a missing one as 0. */
  function StageFinal(rawSum: Option<int>, penSum: Option<int>): Option<int>
  {
    if rawSum.None? && penSum.None? then None else Some(rawSum.GetOr(0) + penSum.GetOr(0))
  }

  // ---------------------------------------------------------------------
  // Properties of the patterns and value rules
  // ---------------------------------------------------------------------

  /** A run of digits followed by a non-digit (or nothing) is exactly the greedy run. */
  lemma {:induction false} DigitRunOf(a: string, t: string)
    requires AllDigits(a) && (t == [] || !IsDigit(t[0]))
    ensures DigitRun(a + t) == |a|
  {
    if a == [] {
      assert a + t == t;
    } else {
      assert (a + t)[1..] == a[1..] + t;
      DigitRunOf(a[1..], t);
    }
  }

  /** Regrouping a concatenation. */
  lemma Assoc(x: string, y: string, z: string)
    ensures x + y + z == x + (y + z)
  {
  }

  /** What is left of `p + x` after `|p|` characters. */
  lemma DropPrefix(p: string, x: string)
    ensures (p + x)[|p|..] == x
  {
  }

  lemma SppSeriesOf(stage: nat, b: string, tail: string)
    requires IsDigitString(b) && (tail == [] || tail == "\n")
    ensures SppSeries(stage, b + tail) == Some(Position(stage, DigitsValue(b)))
  {
    DigitRunOf(b, tail);
    assert (b + tail)[..|b|] == b && (b + tail)[|b|..] == tail;
  }

  lemma SppGroupsOf(a: string, rest: string)
    requires IsDigitString(a)
    ensures SppGroups(a + "_" + rest) == SppSeries(DigitsValue(a), rest)
  {
    var r := a + "_" + rest;
    Assoc(a, "_", rest);
    DigitRunOf(a, "_" + rest);
    assert r[..|a|] == a && r[|a|] == '_' && r[|a| + 1..] == rest;
  }

  lemma SppKeyPrefix(x: string)
    ensures SppKey("spp" + x) == SppGroups(x)
  {
    assert ("spp" + x)[..3] == "spp";
    DropPrefix("spp", x);
  }

  /** `spp<a>_…` passes on to the series part with the number `a` denotes. */
  lemma SppKeyGroups(a: string, rest: string)
    requires IsDigitString(a)
    ensures SppKey("spp" + a + "_" + rest) == SppSeries(DigitsValue(a), rest)
  {
    SppKeyPrefix(a + "_" + rest);
    Assoc("spp" + a, "_", rest);
    Assoc("spp", a, "_" + rest);
    Assoc(a, "_", rest);
    SppGroupsOf(a, rest);
  }

  /** `spp<stage>_<series>` parses back to its two numbers, with or without a final newline. */
  lemma SppKeyOf(stage: nat, series: nat)
    ensures SppKey("spp" + NatToString(stage) + "_" + NatToString(series)) == Some(Position(stage, series))
    ensures SppKey("spp" + NatToString(stage) + "_" + NatToString(series) + "\n") == Some(Position(stage, series))
  {
    var a, b := NatToString(stage), NatToString(series);
    NatToStringValue(stage);
    NatToStringValue(series);
    SppKeyGroups(a, b);
    SppSeriesOf(stage, b, []);
    assert b + [] == b;
    SppKeyGroups(a, b + "\n");
    Assoc("spp" + a + "_", b, "\n");
    SppSeriesOf(stage, b, "\n");
  }

  /** A non-digit right after `spp<digits>_`: no series result. */
  lemma SppKeyRejectsTag(a: string, t: string, b: string)
    requires IsDigitString(a) && t != [] && !IsDigit(t[0])
    ensures SppKey("spp" + a + "_" + (t + b)) == None
  {
    SppKeyGroups(a, t + b);
    assert (t + b)[0] == t[0];
  }

  /** `x_tag` followed by `b` regrouped as `x`, `_`, `tag b`. */
  lemma TagShape(x: string, tag: string, b: string)
    requires |tag| > 0 && tag[0] == '_'
    ensures x + tag + b == x + "_" + (tag[1..] + b)
  {
    assert tag == "_" + tag[1..];
    Assoc(x, tag, b);
    Assoc(x, "_", tag[1..] + b);
    Assoc("_", tag[1..], b);
  }

  /** The penalty and total columns `spp<stage>_pen<series>` and `spp<stage>_tot<series>` are not series results. */
  lemma SppKeyRejects(stage: nat, series: nat)
    ensures SppKey("spp" + NatToString(stage) + "_pen" + NatToString(series)) == None
    ensures SppKey("spp" + NatToString(stage) + "_tot" + NatToString(series)) == None
  {
    var a, b := NatToString(stage), NatToString(series);
    TagShape("spp" + a, "_pen", b);
    SppKeyRejectsTag(a, "pen", b);
    TagShape("spp" + a, "_tot", b);
    SppKeyRejectsTag(a, "tot", b);
  }

  /** The characters a series key can hold. */
  predicate SeriesChar(c: char)
  {
    c == 's' || c == 'p' || c == '_' || c == '\n' || IsDigit(c)
  }

  lemma SppSeriesChars(stage: nat, rest: string)
    requires SppSeries(stage, rest).Some?
    ensures forall i :: 0 <= i < |rest| ==> SeriesChar(rest[i])
  {
    var n := DigitRun(rest);
    forall i | 0 <= i < |rest| ensures SeriesChar(rest[i])
    {
      if i < n {
        assert rest[..n][i] == rest[i];
      } else {
        assert rest[n..][i - n] == rest[i];
      }
    }
  }

  lemma SppGroupsChars(r: string)
    requires SppGroups(r).Some?
    ensures forall i :: 0 <= i < |r| ==> SeriesChar(r[i])
  {
    var n := DigitRun(r);
    SppSeriesChars(DigitsValue(r[..n]), r[n + 1..]);
    forall i | 0 <= i < |r| ensures SeriesChar(r[i])
    {
      if i < n {
        assert r[..n][i] == r[i];
      } else if i > n {
        assert r[n + 1..][i - n - 1] == r[i];
      }
    }
  }

  /** Every character of a series key is `s`, `p`, a digit, `_` or a newline. */
  lemma SppKeyChars(k: string)
    requires SppKey(k).Some?
    ensures forall i :: 0 <= i < |k| ==> SeriesChar(k[i])
  {
    SppGroupsChars(k[3..]);
    assert k[..3] == "spp";
    forall i | 0 <= i < |k| ensures SeriesChar(k[i])
    {
      if i < 3 {
        assert k[..3][i] == k[i];
      } else {
        assert k[3..][i - 3] == k[i];
      }
    }
  }

  /** A word with a character `l` lacks occurs nowhere in `l`, and `l` does not start with it. */
  lemma WordAbsent(l: string, w: string, j: nat, c: char)
    requires j < |w| && w[j] == c && forall m :: 0 <= m < |l| ==> l[m] != c
    ensures forall i: nat :: !OccursAt(l, w, i)
    ensures !StartsWith(l, w)
  {
    forall i: nat ensures !OccursAt(l, w, i)
    {
      if i + |w| <= |l| {
        assert l[i..i + |w|][j] == l[i + j];
      }
    }
    assert !OccursAt(l, w, 0);
  }

  lemma LowerNoE(k: string)
    requires forall i :: 0 <= i < |k| ==> SeriesChar(k[i])
    ensures forall i :: 0 <= i < |Lower(k)| ==> Lower(k)[i] != 'e'
  {
    forall i | 0 <= i < |k| ensures Lower(k)[i] != 'e' {
      assert SeriesChar(k[i]);
    }
  }

  /** A string made of series characters contains none of the penalty words and starts with neither prefix. */
  lemma SeriesCharsNotPenalty(k: string)
    requires forall i :: 0 <= i < |k| ==> SeriesChar(k[i])
    ensures !PenaltyKey(k)
    ensures !StartsWith(Lower(k), "pen") && !StartsWith(Lower(k), "penalty")
  {
    LowerNoE(k);
    NoPenaltyWord(Lower(k));
  }

  /** Without an `e`, none of the penalty words occurs. */
  lemma NoPenaltyWord(l: string)
    requires forall i :: 0 <= i < |l| ==> l[i] != 'e'
    ensures !StartsWith(l, "pen") && !StartsWith(l, "penalty")
    ensures !Contains(l, "_pen") && !Contains(l, "pen_") && !Contains(l, "penalty")
  {
    WordAbsent(l, "pen", 1, 'e');
    WordAbsent(l, "penalty", 1, 'e');
    WordAbsent(l, "_pen", 2, 'e');
    WordAbsent(l, "pen_", 1, 'e');
  }

  /** A series key is never also taken for a penalty, and would be filed under stage 0 if it were. */
  lemma SppKeyNotPenalty(k: string)
    requires SppKey(k).Some?
    ensures !PenaltyKey(k)
    ensures PenaltyPosOf(k) == PenaltyPos(0, None) && PenaltyPosAsWritten(k) == PenaltyPos(0, None)
  {
    SppKeyChars(k);
    SeriesCharsNotPenalty(k);
  }

  /** `Lower` leaves a lower-case prefix in front. */
  lemma LowerStartsWith(p: string, s: string)
    requires forall i :: 0 <= i < |p| ==> 'a' <= p[i] <= 'z' || p[i] == '_'
    ensures StartsWith(Lower(p + s), p)
  {
    var l := Lower(p + s);
    assert forall i :: 0 <= i < |p| ==> l[..|p|][i] == p[i];
  }

  /** A lower-case word in the middle of a string is found by the case-insensitive search. */
  lemma ContainsLowerWord(x: string, w: string, y: string)
    requires forall j :: 0 <= j < |w| ==> LowerChar(w[j]) == w[j]
    ensures Contains(Lower(x + w + y), w)
  {
    var k := x + w + y;
    var l := Lower(k);
    var i := |x|;
    forall j | 0 <= j < |w| ensures l[i..i + |w|][j] == w[j]
    {
      assert l[i + j] == LowerChar(k[i + j]) && k[i + j] == w[j];
    }
    assert l[i..i + |w|] == w;
    assert OccursAt(l, w, i);
  }

  /** A digit where `alty` of `penalty` would be: not the long prefix. */
  lemma NotPenaltyPrefix(k: string)
    requires |k| > 3 && IsDigit(k[3])
    ensures !StartsWith(Lower(k), "penalty")
  {
    if |k| >= 7 {
      assert Lower(k)[..7][3] == Lower(k)[3];
    }
  }

  lemma PenaltySeriesOf(b: string)
    requires IsDigitString(b)
    ensures PenaltySeries("_" + b) == Some(DigitsValue(b))
    ensures PenaltySeries([]) == None
  {
    SkipLeading(b);
    DigitRunOf(b, []);
    assert b + [] == b && b[..|b|] == b;
  }

  /** The groups after the prefix: `<a>`, `<a>_<b>` and `_<a>_<b>`. */
  lemma PenaltyGroupsOf(a: string, b: string)
    requires IsDigitString(a) && IsDigitString(b)
    ensures PenaltyGroups(a) == PenaltyPos(DigitsValue(a), None)
    ensures PenaltyGroups(a + "_" + b) == PenaltyPos(DigitsValue(a), Some(DigitsValue(b)))
    ensures PenaltyGroups("_" + a + "_" + b) == PenaltyGroups(a + "_" + b)
  {
    PenaltyGroupsStage(a);
    PenaltyGroupsBoth(a, b);
    SkipLeading(a + "_" + b);
    Assoc("_" + a, "_", b);
    Assoc("_", a, "_" + b);
    Assoc(a, "_", b);
  }

  lemma PenaltyGroupsStage(a: string)
    requires IsDigitString(a)
    ensures PenaltyGroups(a) == PenaltyPos(DigitsValue(a), None)
  {
    DigitRunOf(a, []);
    assert a + [] == a && a[..|a|] == a && a[|a|..] == [];
    assert PenaltySeries([]) == None;
  }

  lemma PenaltyGroupsBoth(a: string, b: string)
    requires IsDigitString(a) && IsDigitString(b)
    ensures PenaltyGroups(a + "_" + b) == PenaltyPos(DigitsValue(a), Some(DigitsValue(b)))
  {
    PenaltySeriesOf(b);
    var r := a + "_" + b;
    Assoc(a, "_", b);
    DigitRunOf(a, "_" + b);
    assert r[..|a|] == a && r[|a|..] == "_" + b;
  }

  lemma SkipLeading(x: string)
    ensures SkipUnderscore("_" + x) == x
  {
    assert ("_" + x)[1..] == x;
  }

  /** Neither an underscore nor a digit where the groups start: stage 0, no series. */
  lemma PenaltyGroupsNone(r: string)
    requires r != [] && r[0] != '_' && !IsDigit(r[0])
    ensures PenaltyGroups(r) == PenaltyPos(0, None)
  {
    assert r[0..] == r;
  }

  /** `pen<stage>_<series>` and `pen<stage>` are filed under the numbers they carry. */
  lemma PenaltyPosOfPen(stage: nat, series: nat)
    ensures PenaltyPosOf("pen" + NatToString(stage) + "_" + NatToString(series)) == PenaltyPos(stage, Some(series))
    ensures PenaltyPosOf("pen" + NatToString(stage)) == PenaltyPos(stage, None)
  {
    var a, b := NatToString(stage), NatToString(series);
    NatToStringValue(stage);
    NatToStringValue(series);
    PenaltyGroupsOf(a, b);
    assert (a + "_" + b)[0] == a[0];
    PenPrefix(a + "_" + b);
    Assoc("pen" + a, "_", b);
    Assoc("pen", a, "_" + b);
    Assoc(a, "_", b);
    PenPrefix(a);
  }

  /** `pen` followed by a digit: the groups of what follows `pen`. */
  lemma PenPrefix(x: string)
    requires |x| > 0 && IsDigit(x[0])
    ensures PenaltyPosOf("pen" + x) == PenaltyGroups(x)
  {
    LowerStartsWith("pen", x);
    DropPrefix("pen", x);
    NotPenaltyPrefix("pen" + x);
  }

  /** `penalty_<stage>_<series>` is filed under the numbers it carries. */
  lemma PenaltyPosOfPenalty(stage: nat, series: nat)
    ensures PenaltyPosOf("penalty_" + NatToString(stage) + "_" + NatToString(series)) == PenaltyPos(stage, Some(series))
  {
    var a, b := NatToString(stage), NatToString(series);
    NatToStringValue(stage);
    NatToStringValue(series);
    PenaltyGroupsOf(a, b);
    PenaltyKeyShape(a, b);
    PenaltyPrefix("_" + a + "_" + b);
  }

  /**
   * As written, a `penalty_<stage>_<series>` key is filed under stage 0 with
   * no series: the numbers it carries are lost.
   */
  lemma PenaltyAsWrittenDropsNumbers(stage: nat, series: nat)
    ensures PenaltyPosAsWritten("penalty_" + NatToString(stage) + "_" + NatToString(series)) == PenaltyPos(0, None)
  {
    var k := "penalty_" + NatToString(stage) + "_" + NatToString(series);
    PenaltyKeyShape(NatToString(stage), NatToString(series));
    PenaltyPrefix("_" + NatToString(stage) + "_" + NatToString(series));
    LongPrefixIsShort(k);
    PenaltyGroupsNone(k[3..]);
  }

  /** `penalty` in front: the long prefix, with the rest after it. */
  lemma PenaltyPrefix(x: string)
    ensures StartsWith(Lower("penalty" + x), "penalty") && ("penalty" + x)[7..] == x
  {
    LowerStartsWith("penalty", x);
    DropPrefix("penalty", x);
  }

  lemma PenaltyKeyShape(a: string, b: string)
    ensures "penalty_" + a + "_" + b == "penalty" + ("_" + a + "_" + b)
  {
    assert "penalty_" == "penalty" + "_";
    Assoc("penalty", "_", a);
    Assoc("penalty", "_" + a, "_");
    Assoc("penalty", "_" + a + "_", b);
  }

  /** What starts with `penalty` starts with `pen`, and has an `a` or `A` right after it. */
  lemma LongPrefixIsShort(k: string)
    requires StartsWith(Lower(k), "penalty")
    ensures StartsWith(Lower(k), "pen") && k[3..] != [] && k[3..][0] != '_' && !IsDigit(k[3..][0])
  {
    var l := Lower(k);
    assert l[..3] == l[..7][..3];
    assert l[3] == l[..7][3];
    assert LowerChar(k[3]) == 'a';
  }

  /** The penalty column `spp<stage>_pen<series>` is a penalty, filed under stage 0 with no series. */
  lemma SppPenIsPenalty(a: string, b: string)
    ensures PenaltyKey("spp" + a + "_pen" + b)
    ensures PenaltyPosOf("spp" + a + "_pen" + b) == PenaltyPos(0, None)
  {
    var k := "spp" + a + "_pen" + b;
    ContainsLowerWord("spp" + a, "_pen", b);
    assert k[0] == 's';
    assert Lower(k)[0] == 's';
    PrefixDiffers(Lower(k), "pen");
    PrefixDiffers(Lower(k), "penalty");
  }

  /** A string whose first character differs from a word's does not start with it. */
  lemma PrefixDiffers(l: string, w: string)
    requires |l| > 0 && |w| > 0 && l[0] != w[0]
    ensures !StartsWith(l, w)
  {
    if |w| <= |l| {
      assert l[..|w|][0] == l[0];
    }
  }

  /** The two mappings differ only on keys that start with `penalty`. */
  lemma PenaltyPosAgrees(k: string)
    requires !StartsWith(Lower(k), "penalty")
    ensures PenaltyPosOf(k) == PenaltyPosAsWritten(k)
  {
  }

  /** The `None`/`''` guard of lines 110-113 changes nothing: `float` raises on both, so the series value is `safe_float`. */
  lemma SeriesValueIsSafeFloat(v: Json, parseFloat: string -> Option<int>)
    ensures SeriesValue(v, parseFloat) == PyFloat(v, parseFloat)
    ensures SeriesValue(v, parseFloat) == TransformUtils.SafeFloat(v, parseFloat)
  {
  }

  /** SUM is None exactly when every value is None. */
  lemma {:induction false} SqlSumNone(xs: seq<Option<int>>)
    ensures SqlSum(xs).None? <==> forall i :: 0 <= i < |xs| ==> xs[i].None?
  {
    if xs != [] {
      SqlSumNone(xs[..|xs| - 1]);
      assert forall i :: 0 <= i < |xs| - 1 ==> xs[..|xs| - 1][i] == xs[i];
    }
  }

  /**
   * The final time is the SUM over the series values and the penalties of
   * the stage taken together: None when neither has a value.
   */
  lemma {:induction false} SqlSumAppend(xs: seq<Option<int>>, ys: seq<Option<int>>)
    ensures SqlSum(xs + ys) == StageFinal(SqlSum(xs), SqlSum(ys))
  {
    if ys != [] {
      SqlSumAppend(xs, ys[..|ys| - 1]);
      assert (xs + ys)[..|xs + ys| - 1] == xs + ys[..|ys| - 1];
    } else {
      assert xs + ys == xs;
    }
  }

  /** The final-time rule in both directions. */
  lemma StageFinalMeaning(rawSum: Option<int>, penSum: Option<int>)
    ensures StageFinal(rawSum, penSum).None? <==> rawSum.None? && penSum.None?
    ensures rawSum.None? ==> StageFinal(rawSum, penSum) == penSum
    ensures penSum.None? ==> StageFinal(rawSum, penSum) == rawSum
  {
  }

  // ---------------------------------------------------------------------
  // The silver tables
  // ---------------------------------------------------------------------

  /** dim_scoreboard without its key column: `generated_at` is always NULL. */
  datatype ScoreboardRow = ScoreboardRow(name: Json, rawId: int)
  datatype AthleteRow = AthleteRow(fname: Json, lname: Json)

  /** map_roster, keyed by its conflict columns; `eligible` is always NULL. */
  datatype RosterKey = RosterKey(scoreboard: nat, athlete: nat, discipline: nat)
  datatype RosterRow = RosterRow(team: nat, slot: Json, classId: Json, status: Json)

  datatype SeriesKey = SeriesKey(scoreboard: nat, athlete: nat, stage: nat, series: nat)
  /** A fact_stage_series_result row; `payload` is the one-entry object `{k: v}` it came from. */
  datatype SeriesRow = SeriesRow(key: SeriesKey, team: nat, discipline: nat, value: Option<int>, payload: Json)

  datatype PenaltyRow = PenaltyRow(scoreboard: nat, athlete: nat, stage: nat, series: Option<nat>, code: string, value: int)

  datatype TotalKey = TotalKey(scoreboard: nat, athlete: nat, stage: nat)
  datatype TotalRow = TotalRow(rawTime: Option<int>, penalties: Option<int>, finalTime: Option<int>)

  /**
   * The tables the transform writes. The series and penalty tables are kept
   * in insertion order, the order SUM reads them in does not matter.
   */
  datatype Silver = Silver(
    scoreboards: Serial<Json, ScoreboardRow>,
    teams: Serial<Json, Json>,
    disciplines: Serial<Json, Json>,
    athletes: Serial<Json, AthleteRow>,
    roster: Keyed<RosterKey, RosterRow>,
    series: seq<SeriesRow>,
    penalties: seq<PenaltyRow>,
    totals: map<TotalKey, TotalRow>)
  {
    predicate Valid()
    {
      scoreboards.Valid() && teams.Valid() && disciplines.Valid() && athletes.Valid() && UniqueKeys(series)
    }
  }

  /** The unique constraint `(scoreboard_id, athlete_id, stage_num, series_num)`. */
  predicate UniqueKeys(rows: seq<SeriesRow>)
  {
    forall i, j :: 0 <= i < j < |rows| ==> rows[i].key != rows[j].key
  }

  function SeriesKeys(rows: seq<SeriesRow>): set<SeriesKey>
  {
    set i | 0 <= i < |rows| :: rows[i].key
  }

  /**
   * What the transform needs from outside: Python's `float` on strings, and
   * whether fact_penalty's own unique constraints (not part of this model)
   * reject a row, the only way `ON CONFLICT DO NOTHING` without a target
   * skips one.
   */
  datatype Env = Env(parseFloat: string -> Option<int>, penaltyConflict: (seq<PenaltyRow>, PenaltyRow) -> bool)

  /** A JSON value as a nullable SQL parameter. */
  function Nullable(v: Json): Option<Json>
  {
    if v == JNull then None else Some(v)
  }

  /** The first row holding `key`, or `|rows|` when there is none. */
  function FindSeries(rows: seq<SeriesRow>, key: SeriesKey): (i: nat)
    ensures i <= |rows|
    ensures i < |rows| ==> rows[i].key == key
    ensures forall j :: 0 <= j < i ==> rows[j].key != key
  {
    if rows == [] || rows[0].key == key then 0
    else
      var i := 1 + FindSeries(rows[1..], key);
      assert forall j :: 1 <= j < i ==> rows[j] == rows[1..][j - 1];
      i
  }

  /**
   * Line 75: `ON CONFLICT (scoreboard_id, athlete_id, stage_num, series_num)
   * DO UPDATE SET value, payload`; the stored team and discipline stay.
   */
  function UpsertSeries(rows: seq<SeriesRow>, r: SeriesRow): seq<SeriesRow>
  {
    var i := FindSeries(rows, r.key);
    if i < |rows| then rows[i := rows[i].(value := r.value, payload := r.payload)] else rows + [r]
  }

  /**
   * The upsert keeps the key unique, adds the key, writes value and payload
   * to the one row holding it, and changes no other row; a row is added only
   * for a new key.
   */
  lemma UpsertSeriesMeaning(rows: seq<SeriesRow>, r: SeriesRow)
    requires UniqueKeys(rows)
    ensures var rows' := UpsertSeries(rows, r);
            UniqueKeys(rows') && SeriesKeys(rows') == SeriesKeys(rows) + {r.key} &&
            |rows'| == |rows| + (if r.key in SeriesKeys(rows) then 0 else 1) &&
            (forall j :: 0 <= j < |rows| && rows[j].key != r.key ==> rows'[j] == rows[j]) &&
            (exists j :: 0 <= j < |rows'| && rows'[j].key == r.key && rows'[j].value == r.value && rows'[j].payload == r.payload)
  {
    var i := FindSeries(rows, r.key);
    var rows' := UpsertSeries(rows, r);
    if i < |rows| {
      assert r.key in SeriesKeys(rows);
      assert forall j :: 0 <= j < |rows| ==> rows'[j].key == rows[j].key;
      assert SeriesKeys(rows') == SeriesKeys(rows) by {
        assert forall k :: k in SeriesKeys(rows') ==> k in SeriesKeys(rows);
        assert forall k :: k in SeriesKeys(rows) ==> k in SeriesKeys(rows');
      }
      assert rows'[i].key == r.key;
    } else {
      assert r.key !in SeriesKeys(rows);
      assert SeriesKeys(rows') == SeriesKeys(rows) + {r.key} by {
        assert forall k :: k in SeriesKeys(rows') ==> k in SeriesKeys(rows) + {r.key};
        assert rows'[|rows|] == r;
        assert forall j :: 0 <= j < |rows| ==> rows'[j] == rows[j];
        assert forall k :: k in SeriesKeys(rows) ==> k in SeriesKeys(rows');
      }
    }
  }

  // ---------------------------------------------------------------------
  // One athlete: series results, penalties and stage totals
  // ---------------------------------------------------------------------

  /** The ids one athlete's rows are filed under. */
  datatype Placement = Placement(scoreboard: nat, athlete: nat, team: nat, discipline: nat)

  /** Lines 105-114 for one `(k, v)` item: a series result for an `spp<stage>_<series>` key, nothing otherwise. */
  function SeriesField(rows: seq<SeriesRow>, pl: Placement, f: Field, parseFloat: string -> Option<int>): seq<SeriesRow>
  {
    match SppKey(f.key)
    case None => rows
    case Some(p) =>
      UpsertSeries(rows, SeriesRow(SeriesKey(pl.scoreboard, pl.athlete, p.stage, p.series), pl.team, pl.discipline,
                                   SeriesValue(f.val, parseFloat), JObj([f])))
  }

  /** The series loop over the athlete's items, in dict order. */
  function SeriesFields(rows: seq<SeriesRow>, pl: Placement, fs: seq<Field>, parseFloat: string -> Option<int>): seq<SeriesRow>
  {
    if fs == [] then rows
    else SeriesField(SeriesFields(rows, pl, fs[..|fs| - 1], parseFloat), pl, fs[|fs| - 1], parseFloat)
  }

  /** The series keys the items name. */
  function SeriesKeysOf(pl: Placement, fs: seq<Field>): set<SeriesKey>
  {
    if fs == [] then {}
    else
      SeriesKeysOf(pl, fs[..|fs| - 1]) +
      match SppKey(fs[|fs| - 1].key)
      case None => {}
      case Some(p) => {SeriesKey(pl.scoreboard, pl.athlete, p.stage, p.series)}
  }

  /** The series loop keeps the key unique and adds exactly the keys the items name. */
  lemma {:induction false} SeriesFieldsKeys(rows: seq<SeriesRow>, pl: Placement, fs: seq<Field>, parseFloat: string -> Option<int>)
    requires UniqueKeys(rows)
    ensures UniqueKeys(SeriesFields(rows, pl, fs, parseFloat))
    ensures SeriesKeys(SeriesFields(rows, pl, fs, parseFloat)) == SeriesKeys(rows) + SeriesKeysOf(pl, fs)
  {
    if fs != [] {
      var fs0 := fs[..|fs| - 1];
      SeriesFieldsKeys(rows, pl, fs0, parseFloat);
      var prev := SeriesFields(rows, pl, fs0, parseFloat);
      var f := fs[|fs| - 1];
      match SppKey(f.key)
      case None =>
      case Some(p) =>
        UpsertSeriesMeaning(prev, SeriesRow(SeriesKey(pl.scoreboard, pl.athlete, p.stage, p.series), pl.team, pl.discipline,
                                            SeriesValue(f.val, parseFloat), JObj([f])));
    }
  }

  /** Items whose keys are all present already add no row. */
  lemma {:induction false} SeriesFieldsNoGrowth(rows: seq<SeriesRow>, pl: Placement, fs: seq<Field>, parseFloat: string -> Option<int>)
    requires UniqueKeys(rows) && SeriesKeysOf(pl, fs) <= SeriesKeys(rows)
    ensures |SeriesFields(rows, pl, fs, parseFloat)| == |rows|
  {
    if fs != [] {
      var fs0 := fs[..|fs| - 1];
      SeriesFieldsNoGrowth(rows, pl, fs0, parseFloat);
      SeriesFieldsKeys(rows, pl, fs0, parseFloat);
      var prev := SeriesFields(rows, pl, fs0, parseFloat);
      var f := fs[|fs| - 1];
      match SppKey(f.key)
      case None =>
      case Some(p) =>
        UpsertSeriesMeaning(prev, SeriesRow(SeriesKey(pl.scoreboard, pl.athlete, p.stage, p.series), pl.team, pl.discipline,
                                            SeriesValue(f.val, parseFloat), JObj([f])));
    }
  }

  /**
   * Processing the same items again adds no series row: every key they name
   * is present after the first pass, and the upsert updates it in place.
   */
  lemma SeriesReprocess(rows: seq<SeriesRow>, pl: Placement, fs: seq<Field>, parseFloat: string -> Option<int>)
    requires UniqueKeys(rows)
    ensures var once := SeriesFields(rows, pl, fs, parseFloat);
            var twice := SeriesFields(once, pl, fs, parseFloat);
            |twice| == |once| && SeriesKeys(twice) == SeriesKeys(once) && UniqueKeys(twice)
  {
    var once := SeriesFields(rows, pl, fs, parseFloat);
    SeriesFieldsKeys(rows, pl, fs, parseFloat);
    SeriesFieldsKeys(once, pl, fs, parseFloat);
    SeriesFieldsNoGrowth(once, pl, fs, parseFloat);
  }

  /**
   * Lines 117-129 for one item: a penalty for a penalty-like key whose value
   * `float` accepts, filed by its key; skipped when fact_penalty's
   * constraints reject it.
   */
  function PenaltyField(pens: seq<PenaltyRow>, pl: Placement, f: Field, env: Env): seq<PenaltyRow>
  {
    if !PenaltyKey(f.key) then pens
    else
      match PyFloat(f.val, env.parseFloat)
      case None => pens
      case Some(v) =>
        var pos := PenaltyPosOf(f.key);
        var row := PenaltyRow(pl.scoreboard, pl.athlete, pos.stage, pos.series, f.key, v);
        if env.penaltyConflict(pens, row) then pens else pens + [row]
  }

  /** The penalty loop: earlier rows stay, and every added row is this athlete's, filed by a penalty key. */
  function PenaltyFields(pens: seq<PenaltyRow>, pl: Placement, fs: seq<Field>, env: Env): (r: seq<PenaltyRow>)
    ensures |pens| <= |r| && r[..|pens|] == pens
    ensures forall i :: |pens| <= i < |r| ==>
              r[i].scoreboard == pl.scoreboard && r[i].athlete == pl.athlete && PenaltyKey(r[i].code) &&
              PenaltyPos(r[i].stage, r[i].series) == PenaltyPosOf(r[i].code)
  {
    if fs == [] then pens
    else
      var prev := PenaltyFields(pens, pl, fs[..|fs| - 1], env);
      var r := PenaltyField(prev, pl, fs[|fs| - 1], env);
      assert r[..|prev|] == prev;
      assert r[..|pens|] == prev[..|pens|];
      r
  }

  /** The series values of one stage (`SELECT value … WHERE scoreboard_id, athlete_id, stage_num`). */
  function SeriesValues(rows: seq<SeriesRow>, sb: nat, ath: nat, sn: nat): seq<Option<int>>
  {
    if rows == [] then []
    else
      var r := rows[|rows| - 1];
      SeriesValues(rows[..|rows| - 1], sb, ath, sn) +
      (if r.key.scoreboard == sb && r.key.athlete == ath && r.key.stage == sn then [r.value] else [])
  }

  /** The penalty values of one stage; `penalty_value` is never NULL. */
  function PenaltyValues(pens: seq<PenaltyRow>, sb: nat, ath: nat, sn: nat): seq<Option<int>>
  {
    if pens == [] then []
    else
      var p := pens[|pens| - 1];
      PenaltyValues(pens[..|pens| - 1], sb, ath, sn) +
      (if p.scoreboard == sb && p.athlete == ath && p.stage == sn then [Some(p.value)] else [])
  }

  /** Lines 133-144: the stages with a series result or a penalty for the athlete. */
  function Stages(rows: seq<SeriesRow>, pens: seq<PenaltyRow>, sb: nat, ath: nat): set<nat>
  {
    (set i | 0 <= i < |rows| && rows[i].key.scoreboard == sb && rows[i].key.athlete == ath :: rows[i].key.stage) +
    (set i | 0 <= i < |pens| && pens[i].scoreboard == sb && pens[i].athlete == ath :: pens[i].stage)
  }

  /** Lines 146-162: the two sums of a stage and its final time. */
  function StageTotal(rows: seq<SeriesRow>, pens: seq<PenaltyRow>, sb: nat, ath: nat, sn: nat): TotalRow
  {
    var raw := SqlSum(SeriesValues(rows, sb, ath, sn));
    var pen := SqlSum(PenaltyValues(pens, sb, ath, sn));
    TotalRow(raw, pen, StageFinal(raw, pen))
  }

  /** Lines 163-166 for every stage: the total of each is upserted, and every other total stays. */
  function WithTotals(totals: map<TotalKey, TotalRow>, rows: seq<SeriesRow>, pens: seq<PenaltyRow>, sb: nat, ath: nat): map<TotalKey, TotalRow>
  {
    totals + StageTotals(rows, pens, sb, ath, Stages(rows, pens, sb, ath))
  }

  /** The totals row of each stage in `done`. */
  function StageTotals(rows: seq<SeriesRow>, pens: seq<PenaltyRow>, sb: nat, ath: nat, done: set<nat>): map<TotalKey, TotalRow>
  {
    map sn | sn in done :: TotalKey(sb, ath, sn) := StageTotal(rows, pens, sb, ath, sn)
  }

  lemma MergeUpdate<K, V>(a: map<K, V>, b: map<K, V>, k: K, v: V)
    ensures (a + b)[k := v] == a + b[k := v]
  {
  }

  /** Upserting the total of one more stage. */
  lemma StageTotalsAdd(rows: seq<SeriesRow>, pens: seq<PenaltyRow>, sb: nat, ath: nat, done: set<nat>, sn: nat)
    ensures StageTotals(rows, pens, sb, ath, done + {sn}) ==
            StageTotals(rows, pens, sb, ath, done)[TotalKey(sb, ath, sn) := StageTotal(rows, pens, sb, ath, sn)]
  {
  }

  /**
   * Every stage with a series result or a penalty gets a total whose final
   * time is the SUM over that stage's series values and penalties together;
   * totals of other athletes, scoreboards and stages are unchanged.
   */
  lemma WithTotalsMeaning(totals: map<TotalKey, TotalRow>, rows: seq<SeriesRow>, pens: seq<PenaltyRow>, sb: nat, ath: nat, sn: nat)
    requires sn in Stages(rows, pens, sb, ath)
    ensures var t := WithTotals(totals, rows, pens, sb, ath);
            TotalKey(sb, ath, sn) in t && t[TotalKey(sb, ath, sn)] == StageTotal(rows, pens, sb, ath, sn) &&
            t[TotalKey(sb, ath, sn)].finalTime == SqlSum(SeriesValues(rows, sb, ath, sn) + PenaltyValues(pens, sb, ath, sn))
    ensures forall k :: k in totals && (k.scoreboard != sb || k.athlete != ath) ==>
              WithTotals(totals, rows, pens, sb, ath)[k] == totals[k]
  {
    SqlSumAppend(SeriesValues(rows, sb, ath, sn), PenaltyValues(pens, sb, ath, sn));
  }

  /** map_roster's conflict action: slot, class and status are updated, the team stays. */
  function RosterMerge(stored: RosterRow, incoming: RosterRow): RosterRow
  {
    incoming.(team := stored.team)
  }

  /**
   * Lines 101-166 for one athlete. An athlete that is not a dict raises
   * (`ath.get`), which None stands for.
   */
  function AthleteStep(db: Silver, sb: nat, team: nat, disc: nat, ath: Json, env: Env): (r: Option<Silver>)
    requires db.Valid()
    ensures r.Some? ==> r.value.Valid() && r.value.scoreboards == db.scoreboards
    ensures r.None? <==> !ath.JObj?
  {
    if !ath.JObj? then None
    else
      var (aid, athletes) := UpsertNullable(db.athletes, Nullable(Get(ath, "ath_id")),
                                            AthleteRow(Get(ath, "fname"), Get(ath, "lname")), Overwrite);
      var pl := Placement(sb, aid, team, disc);
      var roster := KeyedUpsert(db.roster, RosterKey(sb, aid, disc),
                                RosterRow(team, Get(ath, "slot_id"), Get(ath, "class_id"), Get(ath, "status")), RosterMerge);
      var series := SeriesFields(db.series, pl, ath.fields, env.parseFloat);
      SeriesFieldsKeys(db.series, pl, ath.fields, env.parseFloat);
      var pens := PenaltyFields(db.penalties, pl, ath.fields, env);
      Some(db.(athletes := athletes, roster := roster, series := series, penalties := pens,
               totals := WithTotals(db.totals, series, pens, sb, aid)))
  }

  // ---------------------------------------------------------------------
  // The traversal of one payload
  // ---------------------------------------------------------------------

  /**
   * `for x in (v or [])` where every element then has `.get` called on it:
   * a falsy value is no elements, a list its items; any other truthy value
   * raises (None), either because it is not iterable or because its elements
   * (the keys of a dict, the characters of a string) have no `.get`.
   */
  function Children(v: Json): (r: Option<seq<Json>>)
    ensures v.JArr? ==> r == Some(v.items)
    ensures !Truthy(v) ==> r == Some([])
  {
    if !Truthy(v) then Some([]) else if v.JArr? then Some(v.items) else None
  }

  /** The athlete loop of lines 100-166: the first athlete that raises stops it. */
  function Athletes(db: Silver, sb: nat, team: nat, disc: nat, aths: seq<Json>, env: Env): (r: Option<Silver>)
    requires db.Valid()
    ensures r.Some? ==> r.value.Valid() && r.value.scoreboards == db.scoreboards
  {
    if aths == [] then Some(db)
    else
      match Athletes(db, sb, team, disc, aths[..|aths| - 1], env)
      case None => None
      case Some(d) => AthleteStep(d, sb, team, disc, aths[|aths| - 1], env)
  }

  /** Lines 96-99 and the athlete loop, for one discipline. */
  function DisciplineStep(db: Silver, sb: nat, team: nat, d: Json, env: Env): (r: Option<Silver>)
    requires db.Valid()
    ensures r.Some? ==> r.value.Valid() && r.value.scoreboards == db.scoreboards
  {
    if !d.JObj? then None
    else
      var code := Get(d, "name");
      var (did, ds) := UpsertNullable(db.disciplines, Nullable(code), code, Overwrite);
      match Children(Get(d, "athletes"))
      case None => None
      case Some(aths) => Athletes(db.(disciplines := ds), sb, team, did, aths, env)
  }

  function Disciplines(db: Silver, sb: nat, team: nat, ds: seq<Json>, env: Env): (r: Option<Silver>)
    requires db.Valid()
    ensures r.Some? ==> r.value.Valid() && r.value.scoreboards == db.scoreboards
  {
    if ds == [] then Some(db)
    else
      match Disciplines(db, sb, team, ds[..|ds| - 1], env)
      case None => None
      case Some(d) => DisciplineStep(d, sb, team, ds[|ds| - 1], env)
  }

  /** Lines 92-95 and the discipline loop, for one team: its name falls back to `ent_id`. */
  function TeamStep(db: Silver, sb: nat, t: Json, env: Env): (r: Option<Silver>)
    requires db.Valid()
    ensures r.Some? ==> r.value.Valid() && r.value.scoreboards == db.scoreboards
  {
    if !t.JObj? then None
    else
      var ent := Get(t, "ent_id");
      var (tid, ts) := UpsertNullable(db.teams, Nullable(ent), Or(Get(t, "name"), ent), Overwrite);
      match Children(Get(t, "disciplines"))
      case None => None
      case Some(ds) => Disciplines(db.(teams := ts), sb, tid, ds, env)
  }

  function Teams(db: Silver, sb: nat, ts: seq<Json>, env: Env): (r: Option<Silver>)
    requires db.Valid()
    ensures r.Some? ==> r.value.Valid() && r.value.scoreboards == db.scoreboards
  {
    if ts == [] then Some(db)
    else
      match Teams(db, sb, ts[..|ts| - 1], env)
      case None => None
      case Some(d) => TeamStep(d, sb, ts[|ts| - 1], env)
  }

  /** A `raw_scoreboard` row as the cursor returns it; the payload column is decoded JSON. */
  datatype RawRow = RawRow(id: int, payload: Json)

  /** The scoreboard id a row was filed under, and the tables afterwards. */
  datatype Outcome = Outcome(scoreboard: nat, db: Silver)

  /**
   * `process_raw_row` (lines 85-168): the scoreboard upsert keyed by the
   * payload's `id`, then the team loop. None when it raises: a payload that
   * is not a dict, or a list element without `.get`.
   */
  function ProcessRow(db: Silver, raw: RawRow, env: Env): (r: Option<Outcome>)
    requires db.Valid()
    ensures r.Some? ==> r.value.db.Valid()
  {
    if !raw.payload.JObj? then None
    else
      var p := raw.payload;
      var (sid, sbs) := UpsertNullable(db.scoreboards, Nullable(Get(p, "id")), ScoreboardRow(Get(p, "name"), raw.id), Overwrite);
      match Children(Get(p, "teams"))
      case None => None
      case Some(ts) =>
        match Teams(db.(scoreboards := sbs), sid, ts, env)
        case None => None
        case Some(d) => Some(Outcome(sid, d))
  }

  /**
   * A processed row leaves its scoreboard row holding the payload's name and
   * the raw row's id, under the payload's `id` when that is not None.
   */
  lemma ProcessRowScoreboard(db: Silver, raw: RawRow, env: Env)
    requires db.Valid() && ProcessRow(db, raw, env).Some?
    ensures var o := ProcessRow(db, raw, env).value;
            raw.payload.JObj? && o.scoreboard in o.db.scoreboards.rows &&
            o.db.scoreboards.rows[o.scoreboard] == ScoreboardRow(Get(raw.payload, "name"), raw.id) &&
            (Get(raw.payload, "id") != JNull ==>
               Get(raw.payload, "id") in o.db.scoreboards.index && o.db.scoreboards.index[Get(raw.payload, "id")] == o.scoreboard)
  {
  }

  /** The `{raw_id, scoreboard_id}` entries of the results file. */
  datatype Processed = Processed(rawId: int, scoreboardId: nat)

  /** The state of `run` after some rows: the tables so far, the results, and whether a row raised. */
  datatype RunState = RunState(db: Silver, results: seq<Processed>, raised: bool)

  /** The row loop of `run` (lines 183-187); a row that raises ends it. */
  function RunRows(db: Silver, rows: seq<RawRow>, env: Env): (st: RunState)
    requires db.Valid()
    ensures st.db.Valid()
  {
    if rows == [] then RunState(db, [], false)
    else
      var st := RunRows(db, rows[..|rows| - 1], env);
      if st.raised then st
      else
        match ProcessRow(st.db, rows[|rows| - 1], env)
        case None => st.(raised := true)
        case Some(o) => RunState(o.db, st.results + [Processed(rows[|rows| - 1].id, o.scoreboard)], false)
  }

  /** Lines 177-182: the row of `raw_id` when it is truthy, otherwise every row (the table is listed in id order). */
  function Selected(table: seq<RawRow>, rawId: Option<int>): (rows: seq<RawRow>)
    ensures rawId.None? || rawId.value == 0 ==> rows == table
    ensures rawId.Some? && rawId.value != 0 ==> forall i :: 0 <= i < |rows| ==> rows[i].id == rawId.value
  {
    if rawId.None? || rawId.value == 0 then table
    else Matching(table, rawId.value)
  }

  /** `WHERE id = %s`. */
  function Matching(table: seq<RawRow>, id: int): (rows: seq<RawRow>)
    ensures forall i :: 0 <= i < |rows| ==> rows[i].id == id
    ensures forall r :: r in table && r.id == id ==> r in rows
  {
    if table == [] then []
    else Matching(table[..|table| - 1], id) + (if table[|table| - 1].id == id then [table[|table| - 1]] else [])
  }

  // ---------------------------------------------------------------------
  // The loops
  // ---------------------------------------------------------------------

  /** Once an athlete raises, the athlete loop has raised. */
  lemma {:induction false} AthletesRaise(db: Silver, sb: nat, team: nat, disc: nat, aths: seq<Json>, n: nat, env: Env)
    requires db.Valid() && n <= |aths| && Athletes(db, sb, team, disc, aths[..n], env).None?
    ensures Athletes(db, sb, team, disc, aths, env).None?
    decreases |aths| - n
  {
    if n < |aths| {
      assert aths[..n + 1][..n] == aths[..n];
      AthletesRaise(db, sb, team, disc, aths, n + 1, env);
    } else {
      assert aths[..n] == aths;
    }
  }

  lemma {:induction false} DisciplinesRaise(db: Silver, sb: nat, team: nat, ds: seq<Json>, n: nat, env: Env)
    requires db.Valid() && n <= |ds| && Disciplines(db, sb, team, ds[..n], env).None?
    ensures Disciplines(db, sb, team, ds, env).None?
    decreases |ds| - n
  {
    if n < |ds| {
      assert ds[..n + 1][..n] == ds[..n];
      DisciplinesRaise(db, sb, team, ds, n + 1, env);
    } else {
      assert ds[..n] == ds;
    }
  }

  lemma {:induction false} TeamsRaise(db: Silver, sb: nat, ts: seq<Json>, n: nat, env: Env)
    requires db.Valid() && n <= |ts| && Teams(db, sb, ts[..n], env).None?
    ensures Teams(db, sb, ts, env).None?
    decreases |ts| - n
  {
    if n < |ts| {
      assert ts[..n + 1][..n] == ts[..n];
      TeamsRaise(db, sb, ts, n + 1, env);
    } else {
      assert ts[..n] == ts;
    }
  }

  /** Once a row raises, `run` has stopped: later rows change nothing. */
  lemma {:induction false} RunRowsRaised(db: Silver, rows: seq<RawRow>, n: nat, env: Env)
    requires db.Valid() && n <= |rows| && RunRows(db, rows[..n], env).raised
    ensures RunRows(db, rows, env) == RunRows(db, rows[..n], env)
    decreases |rows| - n
  {
    if n < |rows| {
      assert rows[..n + 1][..n] == rows[..n];
      RunRowsRaised(db, rows, n + 1, env);
    } else {
      assert rows[..n] == rows;
    }
  }

  /** The series loop of lines 105-114. */
  method PivotSeries(rows: seq<SeriesRow>, pl: Placement, fs: seq<Field>, parseFloat: string -> Option<int>)
    returns (rows': seq<SeriesRow>)
    ensures rows' == SeriesFields(rows, pl, fs, parseFloat)
  {
    rows' := rows;
    for i := 0 to |fs|
      invariant rows' == SeriesFields(rows, pl, fs[..i], parseFloat)
    {
      assert fs[..i + 1][..i] == fs[..i];
      var f := fs[i];
      var m := SppKey(f.key);
      if m.Some? {
        var value := SeriesValue(f.val, parseFloat);
        rows' := UpsertSeries(rows', SeriesRow(SeriesKey(pl.scoreboard, pl.athlete, m.value.stage, m.value.series),
                                               pl.team, pl.discipline, value, JObj([f])));
      }
    }
    assert fs[..|fs|] == fs;
  }

  /** The penalty loop of lines 117-129. */
  method InsertPenalties(pens: seq<PenaltyRow>, pl: Placement, fs: seq<Field>, env: Env) returns (pens': seq<PenaltyRow>)
    ensures pens' == PenaltyFields(pens, pl, fs, env)
  {
    pens' := pens;
    for i := 0 to |fs|
      invariant pens' == PenaltyFields(pens, pl, fs[..i], env)
    {
      assert fs[..i + 1][..i] == fs[..i];
      var f := fs[i];
      if PenaltyKey(f.key) {
        var pv := PyFloat(f.val, env.parseFloat);
        if pv.Some? {
          var pos := PenaltyPosOf(f.key);
          var row := PenaltyRow(pl.scoreboard, pl.athlete, pos.stage, pos.series, f.key, pv.value);
          if !env.penaltyConflict(pens', row) {
            pens' := pens' + [row];
          }
        }
      }
    }
    assert fs[..|fs|] == fs;
  }

  /** The stage loop of lines 144-166, over the stages in whatever order the set yields them. */
  method WriteTotals(totals: map<TotalKey, TotalRow>, rows: seq<SeriesRow>, pens: seq<PenaltyRow>, sb: nat, ath: nat)
    returns (totals': map<TotalKey, TotalRow>)
    ensures totals' == WithTotals(totals, rows, pens, sb, ath)
  {
    var stages := Stages(rows, pens, sb, ath);
    var remaining := stages;
    ghost var done: set<nat> := {};
    totals' := totals;
    while remaining != {}
      invariant done + remaining == stages
      invariant totals' == totals + StageTotals(rows, pens, sb, ath, done)
      decreases remaining
    {
      var sn :| sn in remaining;
      StageTotalsAdd(rows, pens, sb, ath, done, sn);
      MergeUpdate(totals, StageTotals(rows, pens, sb, ath, done), TotalKey(sb, ath, sn), StageTotal(rows, pens, sb, ath, sn));
      totals' := totals'[TotalKey(sb, ath, sn) := StageTotal(rows, pens, sb, ath, sn)];
      remaining := remaining - {sn};
      done := done + {sn};
    }
  }

  /** Lines 101-166 for one athlete. */
  method ProcessAthlete(db: Silver, sb: nat, team: nat, disc: nat, ath: Json, env: Env) returns (r: Option<Silver>)
    requires db.Valid()
    ensures r == AthleteStep(db, sb, team, disc, ath, env)
  {
    if !ath.JObj? {
      return None;
    }
    var (aid, athletes) := UpsertNullable(db.athletes, Nullable(Get(ath, "ath_id")),
                                          AthleteRow(Get(ath, "fname"), Get(ath, "lname")), Overwrite);
    var pl := Placement(sb, aid, team, disc);
    var roster := KeyedUpsert(db.roster, RosterKey(sb, aid, disc),
                              RosterRow(team, Get(ath, "slot_id"), Get(ath, "class_id"), Get(ath, "status")), RosterMerge);
    var series := PivotSeries(db.series, pl, ath.fields, env.parseFloat);
    var pens := InsertPenalties(db.penalties, pl, ath.fields, env);
    var totals := WriteTotals(db.totals, series, pens, sb, aid);
    r := Some(db.(athletes := athletes, roster := roster, series := series, penalties := pens, totals := totals));
  }

  /** Lines 96-166 for one discipline. */
  method ProcessDiscipline(db: Silver, sb: nat, team: nat, d: Json, env: Env) returns (r: Option<Silver>)
    requires db.Valid()
    ensures r == DisciplineStep(db, sb, team, d, env)
  {
    if !d.JObj? {
      return None;
    }
    var code := Get(d, "name");
    var (did, ds) := UpsertNullable(db.disciplines, Nullable(code), code, Overwrite);
    var aths := Children(Get(d, "athletes"));
    if aths.None? {
      return None;
    }
    var start := db.(disciplines := ds);
    var cur := start;
    for i := 0 to |aths.value|
      invariant cur.Valid() && Athletes(start, sb, team, did, aths.value[..i], env) == Some(cur)
    {
      assert aths.value[..i + 1][..i] == aths.value[..i];
      var next := ProcessAthlete(cur, sb, team, did, aths.value[i], env);
      if next.None? {
        AthletesRaise(start, sb, team, did, aths.value, i + 1, env);
        return None;
      }
      cur := next.value;
    }
    assert aths.value[..|aths.value|] == aths.value;
    r := Some(cur);
  }

  /** Lines 92-166 for one team. */
  method ProcessTeam(db: Silver, sb: nat, t: Json, env: Env) returns (r: Option<Silver>)
    requires db.Valid()
    ensures r == TeamStep(db, sb, t, env)
  {
    if !t.JObj? {
      return None;
    }
    var ent := Get(t, "ent_id");
    var (tid, ts) := UpsertNullable(db.teams, Nullable(ent), Or(Get(t, "name"), ent), Overwrite);
    var ds := Children(Get(t, "disciplines"));
    if ds.None? {
      return None;
    }
    var start := db.(teams := ts);
    var cur := start;
    for i := 0 to |ds.value|
      invariant cur.Valid() && Disciplines(start, sb, tid, ds.value[..i], env) == Some(cur)
    {
      assert ds.value[..i + 1][..i] == ds.value[..i];
      var next := ProcessDiscipline(cur, sb, tid, ds.value[i], env);
      if next.None? {
        DisciplinesRaise(start, sb, tid, ds.value, i + 1, env);
        return None;
      }
      cur := next.value;
    }
    assert ds.value[..|ds.value|] == ds.value;
    r := Some(cur);
  }

  /** `process_raw_row`. */
  method ProcessRawRow(db: Silver, raw: RawRow, env: Env) returns (r: Option<Outcome>)
    requires db.Valid()
    ensures r == ProcessRow(db, raw, env)
  {
    if !raw.payload.JObj? {
      return None;
    }
    var p := raw.payload;
    var (sid, sbs) := UpsertNullable(db.scoreboards, Nullable(Get(p, "id")), ScoreboardRow(Get(p, "name"), raw.id), Overwrite);
    var ts := Children(Get(p, "teams"));
    if ts.None? {
      return None;
    }
    var start := db.(scoreboards := sbs);
    var cur := start;
    for i := 0 to |ts.value|
      invariant cur.Valid() && Teams(start, sid, ts.value[..i], env) == Some(cur)
    {
      assert ts.value[..i + 1][..i] == ts.value[..i];
      var next := ProcessTeam(cur, sid, ts.value[i], env);
      if next.None? {
        TeamsRaise(start, sid, ts.value, i + 1, env);
        return None;
      }
      cur := next.value;
    }
    assert ts.value[..|ts.value|] == ts.value;
    r := Some(Outcome(sid, cur));
  }

  /** The i-th result is about the i-th selected row. */
  predicate ResultsFollow(results: seq<Processed>, rows: seq<RawRow>)
  {
    |results| <= |rows| && forall j :: 0 <= j < |results| ==> results[j].rawId == rows[j].id
  }

  lemma ResultsFollowExtend(results: seq<Processed>, rows: seq<RawRow>, p: Processed)
    requires ResultsFollow(results, rows) && |results| < |rows| && p.rawId == rows[|results|].id
    ensures ResultsFollow(results + [p], rows)
  {
  }

  /** One turn of the row loop of `run`: the row is processed, or it raises and the loop stops. */
  method RunOne(db: Silver, rows: seq<RawRow>, i: nat, st: RunState, env: Env) returns (st': RunState)
    requires db.Valid() && i < |rows| && st == RunRows(db, rows[..i], env) && !st.raised
    requires |st.results| == i && ResultsFollow(st.results, rows)
    ensures st' == RunRows(db, rows[..i + 1], env)
    ensures ResultsFollow(st'.results, rows)
    ensures st'.raised ==> st'.results == st.results
    ensures !st'.raised ==> |st'.results| == i + 1
  {
    assert rows[..i + 1][..i] == rows[..i];
    var o := ProcessRawRow(st.db, rows[i], env);
    if o.None? {
      st' := st.(raised := true);
    } else {
      ResultsFollowExtend(st.results, rows, Processed(rows[i].id, o.value.scoreboard));
      st' := RunState(o.value.db, st.results + [Processed(rows[i].id, o.value.scoreboard)], false);
    }
  }

  /**
   * `run` (lines 170-192) inside one transaction: the tables after every
   * selected row when none raised; when one raised, the transaction is
   * rolled back and the tables are as before, while the results of the rows
   * before it are still written out.
   */
  method Run(db: Silver, table: seq<RawRow>, rawId: Option<int>, env: Env)
    returns (db': Silver, results: seq<Processed>, raised: bool)
    requires db.Valid()
    ensures var st := RunRows(db, Selected(table, rawId), env);
            results == st.results && raised == st.raised && db' == (if raised then db else st.db)
    ensures raised ==> db' == db && |results| < |Selected(table, rawId)|
    ensures !raised ==> |results| == |Selected(table, rawId)|
    ensures forall i :: 0 <= i < |results| ==> results[i].rawId == Selected(table, rawId)[i].id
  {
    var rows := Selected(table, rawId);
    var st := RunState(db, [], false);
    var i := 0;
    while i < |rows| && !st.raised
      invariant 0 <= i <= |rows|
      invariant st == RunRows(db, rows[..i], env)
      invariant (st.raised ==> |st.results| < i) && (!st.raised ==> |st.results| == i)
      invariant ResultsFollow(st.results, rows)
    {
      st := RunOne(db, rows, i, st, env);
      i := i + 1;
    }
    if st.raised {
      RunRowsRaised(db, rows, i, env);
    } else {
      assert rows[..i] == rows;
    }
    db' := if st.raised then db else st.db;
    results := st.results;
    raised := st.raised;
  }
}
