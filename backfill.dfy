/**
 * `scripts/backfill_match_number.py`: fill in `match_number` for the raw
 * rows that lack one, from a trailing `/<digits>` in their `source`.
 */
module Backfill {
  import opened Wrappers
  import opened PyText
  import opened PyRegex

  // ---------------------------------------------------------------------------
  // re.search(r"/(\d+)(?:/?$)", src or '') and int(m.group(1))
  // ---------------------------------------------------------------------------

  /** The pattern matches `s[p..]`, with group 1 being `s[p + 1..q]`. */
  predicate PatternAt(s: string, p: nat, q: nat)
  {
    p + 1 < q <= |s| && s[p] == '/' && AllDigits(s[p + 1..q]) && TailOk(s[q..])
  }

  /** The number the backfill extracts from `src`, or None when the pattern does not match. */
  function TrailingNumber(src: Option<string>): (r: Option<nat>)
  {
    var s := src.GetOr("");
    var u := BeforeEnd(s);
    var k := TrailingDigits(u);
    if 0 < k < |u| && u[|u| - k - 1] == '/' then Some(DigitsValue(u[|u| - k..])) else None
  }

  lemma BodyOfMatch(s: string, p: nat, q: nat)
    requires PatternAt(s, p, q)
    ensures BeforeEnd(s) == s[..q]
  {
    var t := s[q..];
    assert s == s[..q] + t;
    assert IsDigit(s[q - 1]) by { assert s[p + 1..q][q - 1 - (p + 1)] == s[q - 1]; }
  }

  /** A match found by the extraction is a match of the pattern. */
  lemma TrailingNumberSound(s: string)
    requires TrailingNumber(Some(s)).Some?
    ensures var u := BeforeEnd(s); var k := TrailingDigits(u);
            PatternAt(s, |u| - k - 1, |u|) && TrailingNumber(Some(s)).value == DigitsValue(s[|u| - k..|u|])
  {
    var u := BeforeEnd(s);
    var k := TrailingDigits(u);
    assert 0 < k < |u| && u[|u| - k - 1] == '/';
    assert s[..|u|] == u;
    assert s[|u| - k - 1] == '/' by {
      assert s[..|u|][|u| - k - 1] == s[|u| - k - 1];
    }
    assert s[|u| - k..|u|] == u[|u| - k..];
    assert AllDigits(s[|u| - k..|u|]);
    assert TailOk(s[|u|..]);
  }

  /** Every match of the pattern is found, with its group's value. */
  lemma TrailingNumberComplete(s: string, p: nat, q: nat)
    requires PatternAt(s, p, q)
    ensures TrailingNumber(Some(s)) == Some(DigitsValue(s[p + 1..q]))
  {
    BodyOfMatch(s, p, q);
    var u := s[..q];
    assert u[p + 1..] == s[p + 1..q];
    TrailingDigitsUnique(u, p + 1);
  }

  /** Sources without a '/' (and a NULL source) never yield a number. */
  lemma NoSlashNoNumber(src: Option<string>)
    requires src.None? || !HasChar(src.value, '/')
    ensures TrailingNumber(src).None?
  {
  }

  // ---------------------------------------------------------------------------
  // The per-table loop
  // ---------------------------------------------------------------------------

  /** The columns the backfill reads and writes; NULL is None. */
  datatype Row = Row(matchNumber: Option<int>, source: Option<string>)

  type Table = map<nat, Row>

  /** `extract_match_number(src)`: `TrailingNumber` in the script; the loop is stated for any extractor. */
  type Extractor = Option<string> -> Option<nat>

  /** A row the SELECT returns and the extractor finds a number in. */
  predicate Fillable(r: Row, extract: Extractor)
  {
    r.matchNumber.None? && extract(r.source).Some?
  }

  /** The row after the backfill. */
  function Filled(r: Row, extract: Extractor): (r': Row)
    ensures r'.source == r.source
    ensures Fillable(r, extract) ==> r'.matchNumber == Some(extract(r.source).value as int)
    ensures !Fillable(r, extract) ==> r' == r
  {
    if Fillable(r, extract) then r.(matchNumber := Some(extract(r.source).value as int)) else r
  }

  /** `ids` is an ordering of the rows `SELECT id, source ... WHERE match_number IS NULL` returns. */
  predicate SelectOrder(t: Table, ids: seq<nat>)
  {
    (forall i, j :: 0 <= i < j < |ids| ==> ids[i] != ids[j]) &&
    (forall i :: 0 <= i < |ids| ==> ids[i] in t && t[ids[i]].matchNumber.None?) &&
    (forall id :: id in t && t[id].matchNumber.None? ==> id in ids)
  }

  function FillableIds(t: Table, extract: Extractor): set<nat>
  {
    set id | id in t && Fillable(t[id], extract)
  }

  /** How many of `ids` lie in `S`. */
  function CountIn(ids: seq<nat>, S: set<nat>): nat
  {
    if ids == [] then 0 else CountIn(ids[..|ids| - 1], S) + (if ids[|ids| - 1] in S then 1 else 0)
  }

  lemma CountInStep(ids: seq<nat>, i: nat, S: set<nat>)
    requires i < |ids|
    ensures CountIn(ids[..i + 1], S) == CountIn(ids[..i], S) + (if ids[i] in S then 1 else 0)
  {
    assert ids[..i + 1][..i] == ids[..i];
  }

  /** The count only looks at the members of `S` among `ids`. */
  lemma {:induction false} CountInFrame(ids: seq<nat>, S: set<nat>, T: set<nat>)
    requires forall i :: 0 <= i < |ids| ==> (ids[i] in S <==> ids[i] in T)
    ensures CountIn(ids, S) == CountIn(ids, T)
  {
    if ids != [] {
      CountInFrame(ids[..|ids| - 1], S, T);
    }
  }

  /** Over distinct ids that include all of `S`, the count is the size of `S`. */
  lemma {:induction false} CountInIsCard(ids: seq<nat>, S: set<nat>)
    requires forall i, j :: 0 <= i < j < |ids| ==> ids[i] != ids[j]
    requires forall x :: x in S ==> x in ids
    ensures CountIn(ids, S) == |S|
  {
    if ids == [] {
      assert S == {};
    } else {
      var init := ids[..|ids| - 1];
      var last := ids[|ids| - 1];
      assert ids == init + [last];
      var S' := S - {last};
      CountInIsCard(init, S');
      forall i | 0 <= i < |init|
        ensures init[i] in S <==> init[i] in S'
      {
        assert init[i] == ids[i] != last;
      }
      CountInFrame(init, S, S');
    }
  }

  /**
   * The statements that can raise: a table's `SELECT … WHERE match_number
   * IS NULL` and the `UPDATE` of one row. The connection is in autocommit
   * mode, so every UPDATE that went through stays when a later one raises.
   */
  datatype Stmt = SelectMissing(table: string) | SetMatchNumber(table: string, id: nat)

  /** The UPDATE the loop issues for row `id` raises. */
  predicate UpdateFails(t: Table, id: nat, extract: Extractor, fails: nat -> bool)
  {
    id in t && Fillable(t[id], extract) && fails(id)
  }

  /** The position of the first selected row whose UPDATE raises, or `|ids|` when none does. */
  function FirstFailure(t: Table, ids: seq<nat>, extract: Extractor, fails: nat -> bool): (k: nat)
    ensures k <= |ids|
    ensures forall j :: 0 <= j < k ==> !UpdateFails(t, ids[j], extract, fails)
    ensures k < |ids| ==> UpdateFails(t, ids[k], extract, fails)
  {
    if ids == [] then 0
    else if UpdateFails(t, ids[0], extract, fails) then 0
    else 1 + FirstFailure(t, ids[1..], extract, fails)
  }

  /**
   * The body of the per-row loop: extract the number from the source and,
   * when there is one, update the row; `fails` says that UPDATE raises.
   */
  method UpdateRow(t: Table, id: nat, extract: Extractor, fails: bool) returns (t': Table, changed: bool, raised: bool)
    requires id in t && t[id].matchNumber.None?
    ensures raised <==> Fillable(t[id], extract) && fails
    ensures changed <==> Fillable(t[id], extract) && !fails
    ensures t' == if raised then t else t[id := Filled(t[id], extract)]
  {
    var r := t[id];
    var m := extract(r.source);
    t', changed, raised := t, false, false;
    if m.Some? {
      if fails {
        raised := true;
        return;
      }
      t' := t[id := r.(matchNumber := Some(m.value as int))];
      changed := true;
    }
  }

  /** After the first `i` selected rows of `t`: those are filled and the rest are untouched. */
  ghost predicate FilledUpTo(t: Table, ids: seq<nat>, i: nat, extract: Extractor, t': Table)
    requires i <= |ids|
  {
    t'.Keys == t.Keys &&
    forall id :: id in t ==> t'[id] == if id in ids[..i] then Filled(t[id], extract) else t[id]
  }

  /** The pass over `t` after its first `i` selected rows, with `updated` counting the changes. */
  ghost predicate PassedUpTo(t: Table, ids: seq<nat>, i: nat, extract: Extractor, t': Table, updated: nat)
    requires i <= |ids|
  {
    FilledUpTo(t, ids, i, extract, t') && updated == CountIn(ids[..i], FillableIds(t, extract))
  }

  /** One iteration of the per-row loop: its UPDATE raises, or the pass covers one more row. */
  method BackfillStep(t: Table, ids: seq<nat>, i: nat, extract: Extractor, fails: nat -> bool, t': Table, updated: nat)
    returns (t'': Table, updated': nat, raised: bool)
    requires SelectOrder(t, ids) && i < |ids|
    requires PassedUpTo(t, ids, i, extract, t', updated)
    ensures raised <==> UpdateFails(t, ids[i], extract, fails)
    ensures raised ==> t'' == t' && updated' == updated
    ensures !raised ==> PassedUpTo(t, ids, i + 1, extract, t'', updated')
  {
    var id := ids[i];
    var done, done' := ids[..i], ids[..i + 1];
    assert id !in done;
    assert done' == done + [id];
    assert t'[id] == t[id];
    var changed;
    t'', changed, raised := UpdateRow(t', id, extract, fails(id));
    if raised {
      updated' := updated;
      return;
    }
    assert t''.Keys == t.Keys;
    forall x | x in t ensures t''[x] == if x in done' then Filled(t[x], extract) else t[x] {
      if x != id {
        assert x in done' <==> x in done;
      }
    }
    assert id in FillableIds(t, extract) <==> changed;
    updated' := if changed then updated + 1 else updated;
    CountInStep(ids, i, FillableIds(t, extract));
  }

  /**
   * One table's pass: every selected row whose source yields a number gets
   * it, nothing else changes, and `updated` counts the rows changed. An
   * UPDATE that raises ends the pass; the rows before it keep their numbers.
   */
  method BackfillTable(t: Table, ids: seq<nat>, extract: Extractor, fails: nat -> bool)
    returns (t': Table, updated: nat, raised: bool)
    requires SelectOrder(t, ids)
    ensures raised <==> FirstFailure(t, ids, extract, fails) < |ids|
    ensures FilledUpTo(t, ids, FirstFailure(t, ids, extract, fails), extract, t')
    ensures !raised ==> t'.Keys == t.Keys
    ensures !raised ==> forall id :: id in t ==> t'[id] == Filled(t[id], extract)
    ensures !raised ==> updated == |FillableIds(t, extract)|
  {
    t', updated, raised := t, 0, false;
    var i := 0;
    while i < |ids|
      invariant i <= FirstFailure(t, ids, extract, fails) && !raised
      invariant PassedUpTo(t, ids, i, extract, t', updated)
    {
      var t'', updated', raisedHere := BackfillStep(t, ids, i, extract, fails, t', updated);
      if raisedHere {
        raised := true;
        break;
      }
      t', updated := t'', updated';
      i := i + 1;
    }
    if !raised {
      assert ids[..i] == ids;
      CountInIsCard(ids, FillableIds(t, extract));
    }
  }

  /** The tables the script walks, in order. */
  const Tables: seq<string> := ["raw_scoreboard", "raw_schedule"]

  /** `t'` is `t` backfilled with `extract`, and `n` the number of rows it changed. */
  ghost predicate Backfilled(t: Table, t': Table, n: nat, extract: Extractor)
  {
    n == |FillableIds(t, extract)| && t'.Keys == t.Keys && forall id :: id in t ==> t'[id] == Filled(t[id], extract)
  }

  /** The UPDATEs of table `tbl` that raise. */
  function UpdatesOf(fails: Stmt -> bool, tbl: string): nat -> bool
  {
    (id: nat) => fails(SetMatchNumber(tbl, id))
  }

  /** The pass over `tbl` raises: its SELECT does, or one of its UPDATEs does. */
  ghost predicate TableRaises(t: Table, ids: seq<nat>, tbl: string, extract: Extractor, fails: Stmt -> bool)
  {
    fails(SelectMissing(tbl)) || FirstFailure(t, ids, extract, UpdatesOf(fails, tbl)) < |ids|
  }

  /** `t'` is what a raising pass over `tbl` leaves: nothing after a failed SELECT, else the rows before the failed UPDATE. */
  ghost predicate PartlyBackfilled(t: Table, ids: seq<nat>, tbl: string, extract: Extractor, fails: Stmt -> bool, t': Table)
  {
    if fails(SelectMissing(tbl)) then t' == t
    else FilledUpTo(t, ids, FirstFailure(t, ids, extract, UpdatesOf(fails, tbl)), extract, t')
  }

  /**
   * The script's loop over the two tables: each is backfilled independently
   * and `counts` holds the `updated` figure of every table it finished. A
   * statement that raises ends the script, leaving that table partly
   * backfilled and the later ones untouched.
   */
  method BackfillTables(db: map<string, Table>, order: map<string, seq<nat>>, extract: Extractor, fails: Stmt -> bool)
    returns (db': map<string, Table>, counts: seq<nat>, raised: bool)
    requires forall tbl :: tbl in Tables ==> tbl in db && tbl in order && SelectOrder(db[tbl], order[tbl])
    ensures db'.Keys == db.Keys && |counts| <= |Tables|
    ensures raised <==> |counts| < |Tables|
    ensures forall tbl :: tbl in db && tbl !in Tables ==> db'[tbl] == db[tbl]
    ensures forall k :: 0 <= k < |counts| ==>
              !TableRaises(db[Tables[k]], order[Tables[k]], Tables[k], extract, fails) &&
              Backfilled(db[Tables[k]], db'[Tables[k]], counts[k], extract)
    ensures raised ==> var tbl := Tables[|counts|];
                       TableRaises(db[tbl], order[tbl], tbl, extract, fails) &&
                       PartlyBackfilled(db[tbl], order[tbl], tbl, extract, fails, db'[tbl])
    ensures forall k :: |counts| < k < |Tables| ==> db'[Tables[k]] == db[Tables[k]]
  {
    db', counts, raised := db, [], false;
    var k := 0;
    while k < |Tables|
      invariant k <= |Tables| && |counts| == k && db'.Keys == db.Keys
      invariant forall tbl :: tbl in db && tbl !in Tables[..k] ==> db'[tbl] == db[tbl]
      invariant forall j :: 0 <= j < k ==>
                  !TableRaises(db[Tables[j]], order[Tables[j]], Tables[j], extract, fails) &&
                  Backfilled(db[Tables[j]], db'[Tables[j]], counts[j], extract)
    {
      var tbl := Tables[k];
      assert tbl !in Tables[..k];
      if fails(SelectMissing(tbl)) {
        raised := true;
        return;
      }
      var t', n, r := BackfillTable(db'[tbl], order[tbl], extract, UpdatesOf(fails, tbl));
      db' := db'[tbl := t'];
      if r {
        raised := true;
        return;
      }
      counts := counts + [n];
      k := k + 1;
    }
  }

  /**
   * The whole script with `extract_match_number`: every other table is left
   * alone; for each table it finished `counts` holds the number of rows that
   * got a number, each row being its backfilled version; a statement that
   * raises ends it with the rows updated so far kept.
   */
  method BackfillAll(db: map<string, Table>, order: map<string, seq<nat>>, fails: Stmt -> bool)
    returns (db': map<string, Table>, counts: seq<nat>, raised: bool)
    requires forall tbl :: tbl in Tables ==> tbl in db && tbl in order && SelectOrder(db[tbl], order[tbl])
    ensures db'.Keys == db.Keys && |counts| <= |Tables|
    ensures raised <==> |counts| < |Tables|
    ensures forall tbl :: tbl in db && tbl !in Tables ==> db'[tbl] == db[tbl]
    ensures forall k :: 0 <= k < |counts| ==>
              var tbl := Tables[k];
              !TableRaises(db[tbl], order[tbl], tbl, TrailingNumber, fails) &&
              counts[k] == |FillableIds(db[tbl], TrailingNumber)| &&
              db'[tbl].Keys == db[tbl].Keys &&
              forall id :: id in db[tbl] ==> db'[tbl][id] == Filled(db[tbl][id], TrailingNumber)
    ensures raised ==> var tbl := Tables[|counts|];
                       TableRaises(db[tbl], order[tbl], tbl, TrailingNumber, fails) &&
                       PartlyBackfilled(db[tbl], order[tbl], tbl, TrailingNumber, fails, db'[tbl])
    ensures forall k :: |counts| < k < |Tables| ==> db'[Tables[k]] == db[Tables[k]]
  {
    db', counts, raised := BackfillTables(db, order, TrailingNumber, fails);
    assert forall k :: 0 <= k < |counts| ==> Backfilled(db[Tables[k]], db'[Tables[k]], counts[k], TrailingNumber);
  }

  /** A second run changes nothing: every row it selects is one that did not match. */
  lemma BackfillIdempotent(r: Row, extract: Extractor)
    ensures Filled(Filled(r, extract), extract) == Filled(r, extract)
  {
  }
}
