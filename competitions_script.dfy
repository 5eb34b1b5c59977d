/**
 * `scripts/ingest_competitions.py`: for every configured `raw_competition`
 * URL, either walk a paged listing page by page, or discover competition ids
 * from the URL's base and ingest one URL per id, or fall back to a fixed id
 * range, or ingest the URL itself. The helpers it shares with
 * `scripts/ingest_all_matches.py` are in `Discovery`.
 */
module CompetitionsScript {
  import opened Wrappers
  import opened Json
  import opened Http
  import opened PyText
  import opened Partition
  import opened RawStore
  import opened Ingest
  import opened Discovery

  // ---------------------------------------------------------------------------
  // Settings
  // ---------------------------------------------------------------------------

  /** `END_PAGE`, `START_ID`, `END_ID` (already converted by `int()`) and `FORCE_FULL_PAGES`. */
  datatype Settings = Settings(endPage: int, startId: int, endId: int, forcePages: bool)

  /** What the script uses when the variables are unset. */
  const Defaults: Settings := Settings(50, 580, 640, false)

  /** The table every competition payload goes to. */
  const CompTable: string := "raw_competition"

  /** `os.getenv('FORCE_FULL_PAGES', '').lower() in ('1','true','yes')`. */
  function ForceFlag(v: Option<string>): (b: bool)
    ensures b ==> v.Some? && 1 <= |v.value| <= 4
    ensures v == Some("1") || v == Some("true") || v == Some("yes") ==> b
  {
    var s := Lower(v.GetOr(""));
    s == "1" || s == "true" || s == "yes"
  }

  // ---------------------------------------------------------------------------
  // re.search(r"(.*page=)(\d+)(.*)$", comp_url)
  // ---------------------------------------------------------------------------

  /** `page=` followed by a digit starts at `p`. */
  predicate MarkerAt(line: string, p: nat)
  {
    p + 6 <= |line| && line[p..p + 5] == "page=" && IsDigit(line[p + 5])
  }

  /** The last marker starting before `n`, if any. */
  function LastMarkerBelow(line: string, n: nat): (r: Option<nat>)
    requires n <= |line|
    ensures r.Some? ==> r.value < n && MarkerAt(line, r.value)
    ensures forall p: nat :: p < n && (r.None? || r.value < p) ==> !MarkerAt(line, p)
  {
    if n == 0 then None
    else if MarkerAt(line, n - 1) then Some(n - 1)
    else LastMarkerBelow(line, n - 1)
  }

  /** Where the run of digits starting at `i` ends. */
  function DigitRunEnd(line: string, i: nat): (j: nat)
    requires i <= |line|
    ensures i <= j <= |line| && (j == |line| || !IsDigit(line[j]))
    ensures forall k :: i <= k < j ==> IsDigit(line[k])
    decreases |line| - i
  {
    if i == |line| || !IsDigit(line[i]) then i else DigitRunEnd(line, i + 1)
  }

  /** The text `$` anchors: all of `s`, or all of it but a final newline. */
  function BeforeFinalNewline(s: string): (t: string)
    ensures s == t || s == t + "\n"
  {
    if s != [] && s[|s| - 1] == '\n' then s[..|s| - 1] else s
  }

  /** The line of a URL the pattern can match in. */
  function LastLine(url: string): (line: string)
    ensures !HasChar(line, '\n')
  {
    AfterLastNewline(BeforeFinalNewline(url))
  }

  /** Groups 1, 2 (through `int()`) and 3 of a match (`m.group(3) or ''` is the group itself). */
  datatype PagedParts = PagedParts(prefix: string, startPage: nat, suffix: string)

  /** The match of the paged pattern in one line: the greedy first group ends at the last marker, the digit group takes the whole run after it. */
  function PagedLine(line: string): (r: Option<PagedParts>)
    ensures r.None? <==> forall p: nat :: !MarkerAt(line, p)
  {
    match LastMarkerBelow(line, |line|)
    case None => None
    case Some(p) =>
      var j := DigitRunEnd(line, p + 5);
      assert forall k :: p + 5 <= k < j ==> line[p + 5..j][k - (p + 5)] == line[k];
      Some(PagedParts(line[..p + 5], DigitsValue(line[p + 5..j]), line[j..]))
  }

  /**
   * The match of the paged pattern. `.` does not cross a newline and `$`
   * matches at the end or before a final newline, so the match lies in the
   * last line.
   */
  function PagedUrl(url: string): (r: Option<PagedParts>)
  {
    PagedLine(LastLine(url))
  }

  /** The pieces of a line cut at a marker and at the end of the digit run after it. */
  lemma CutAtMarker(line: string, p: nat, j: nat)
    requires MarkerAt(line, p) && j == DigitRunEnd(line, p + 5)
    ensures IsDigitString(line[p + 5..j])
    ensures line == line[..p + 5] + line[p + 5..j] + line[j..]
    ensures EndsWith(line[..p + 5], "page=")
    ensures line[j..] == [] || !IsDigit(line[j..][0])
  {
    var d := line[p + 5..j];
    assert forall k :: 0 <= k < |d| ==> d[k] == line[p + 5 + k];
    assert line[..p + 5][p..] == line[p..p + 5];
    assert line[j..] != [] ==> line[j..][0] == line[j];
  }

  /** A match splits the line into a prefix ending `page=`, a run of digits with the start page's value, and the rest. */
  lemma PagedLineSplits(line: string) returns (d: string)
    requires PagedLine(line).Some?
    ensures var m := PagedLine(line).value;
            IsDigitString(d) && DigitsValue(d) == m.startPage && line == m.prefix + d + m.suffix &&
            EndsWith(m.prefix, "page=") && (m.suffix == [] || !IsDigit(m.suffix[0]))
  {
    var p := LastMarkerBelow(line, |line|).value;
    var j := DigitRunEnd(line, p + 5);
    CutAtMarker(line, p, j);
    d := line[p + 5..j];
  }

  lemma PagedUrlSplits(url: string) returns (d: string)
    requires PagedUrl(url).Some?
    ensures var m := PagedUrl(url).value;
            IsDigitString(d) && DigitsValue(d) == m.startPage && LastLine(url) == m.prefix + d + m.suffix &&
            EndsWith(m.prefix, "page=") && (m.suffix == [] || !IsDigit(m.suffix[0]))
  {
    d := PagedLineSplits(LastLine(url));
  }

  /** No marker starts inside the prefix's `page=` or the digits that follow it. */
  lemma NoMarkerWithin(line: string, q: nat, e: nat, p: nat)
    requires q + 5 < e <= |line| && line[q..q + 5] == "page=" && forall k :: q + 5 <= k < e ==> IsDigit(line[k])
    requires q < p < e
    ensures !MarkerAt(line, p)
  {
    if p < q + 5 {
      assert line[p] == line[q..q + 5][p - q];
      assert line[p] != 'p';
    } else {
      assert IsDigit(line[p]);
    }
  }

  /** A marker inside the suffix is a marker of the suffix. */
  lemma MarkerInSuffix(line: string, off: nat, suf: string, p: nat)
    requires off <= p && off + |suf| == |line| && line[off..] == suf
    requires MarkerAt(line, p)
    ensures MarkerAt(suf, p - off)
  {
    assert forall k :: p <= k < p + 6 ==> line[k] == suf[k - off];
    assert suf[p - off..p - off + 5] == line[p..p + 5];
  }

  /** A marker with none after it is the last one. */
  lemma LastMarkerIs(line: string, m: nat)
    requires MarkerAt(line, m) && forall p: nat :: m < p < |line| ==> !MarkerAt(line, p)
    ensures LastMarkerBelow(line, |line|) == Some(m)
  {
  }

  /** The run of digits from `i` ends at the first non-digit. */
  lemma DigitRunIs(line: string, i: nat, e: nat)
    requires i <= e <= |line| && (forall k :: i <= k < e ==> IsDigit(line[k])) && (e == |line| || !IsDigit(line[e]))
    ensures DigitRunEnd(line, i) == e
  {
  }

  lemma PartsSlices(pre: string, d: string, suf: string)
    ensures var line := pre + d + suf;
            line[..|pre|] == pre && line[|pre|..|pre| + |d|] == d && line[|pre| + |d|..] == suf
  {
  }

  /** In text, `page=`, digits and a marker-free suffix, the `page=` is the last marker. */
  lemma MarkerOfParts(q: string, d: string, suf: string)
    requires IsDigitString(d)
    requires suf == [] || !IsDigit(suf[0])
    requires forall p: nat :: !MarkerAt(suf, p)
    ensures var line := q + "page=" + d + suf;
            MarkerAt(line, |q|) && forall p: nat :: |q| < p < |line| ==> !MarkerAt(line, p)
  {
    var pre := q + "page=";
    var line := pre + d + suf;
    var e := |pre| + |d|;
    var m := |q|;
    assert line[m..m + 5] == "page=";
    assert forall k :: m + 5 <= k < e ==> line[k] == d[k - m - 5];
    assert line[m + 5] == d[0];
    forall p: nat | m < p < |line| ensures !MarkerAt(line, p) {
      if p < e {
        NoMarkerWithin(line, m, e, p);
      } else if MarkerAt(line, p) {
        assert line[e..] == suf;
        MarkerInSuffix(line, e, suf, p);
      }
    }
  }

  /** After a prefix, the run of digits of a digit string followed by a non-digit ends with the digit string. */
  lemma DigitRunOfParts(pre: string, d: string, suf: string)
    requires AllDigits(d) && (suf == [] || !IsDigit(suf[0]))
    ensures DigitRunEnd(pre + d + suf, |pre|) == |pre| + |d|
  {
    var line, e := pre + d + suf, |pre| + |d|;
    assert forall k :: |pre| <= k < e ==> line[k] == d[k - |pre|];
    assert e < |line| ==> line[e] == suf[0];
    DigitRunIs(line, |pre|, e);
  }

  /** The match read off at a known last marker and digit run. */
  lemma PagedLineAt(line: string, m: nat, e: nat)
    requires LastMarkerBelow(line, |line|) == Some(m)
    requires DigitRunEnd(line, m + 5) == e
    ensures PagedLine(line) == Some(PagedParts(line[..m + 5], DigitsValue(line[m + 5..e]), line[e..]))
  {
  }

  /**
   * Round trip on one line: text, `page=`, a run of digits and a suffix that
   * does not start with a digit and holds no further `page=`-digit marker
   * match with exactly those pieces.
   */
  lemma PagedLineOf(q: string, d: string, suf: string)
    requires IsDigitString(d)
    requires suf == [] || !IsDigit(suf[0])
    requires forall p: nat :: !MarkerAt(suf, p)
    ensures PagedLine(q + "page=" + d + suf) == Some(PagedParts(q + "page=", DigitsValue(d), suf))
  {
    var pre := q + "page=";
    var line := pre + d + suf;
    MarkerOfParts(q, d, suf);
    LastMarkerIs(line, |q|);
    DigitRunOfParts(pre, d, suf);
    PartsSlices(pre, d, suf);
    PagedLineAt(line, |q|, |pre| + |d|);
  }

  /**
   * Round trip: a URL of one line made of some text, `page=`, `str(n)` and a
   * suffix that does not start with a digit and holds no further marker,
   * matches with exactly those pieces, start page `n`.
   */
  lemma PagedUrlOf(q: string, n: nat, suf: string)
    requires !HasChar(q, '\n') && !HasChar(suf, '\n')
    requires suf == [] || !IsDigit(suf[0])
    requires forall p: nat :: !MarkerAt(suf, p)
    ensures PagedUrl(q + "page=" + NatToString(n) + suf) == Some(PagedParts(q + "page=", n, suf))
  {
    var d := NatToString(n);
    var url := q + "page=" + d + suf;
    LineOfParts(q, d, suf);
    AfterLastNewlineOfLine(url);
    PagedLineOf(q, d, suf);
    NatToStringValue(n);
  }

  /** The pieces of a one-line URL make a URL with no newline and no final newline. */
  lemma LineOfParts(q: string, d: string, suf: string)
    requires !HasChar(q, '\n') && !HasChar(suf, '\n') && IsDigitString(d)
    ensures var url := q + "page=" + d + suf; !HasChar(url, '\n') && BeforeFinalNewline(url) == url
  {
    var url := q + "page=" + d + suf;
    var e := |q| + 5 + |d|;
    forall k | 0 <= k < |url| ensures url[k] != '\n' {
      if k < |q| { assert url[k] == q[k]; }
      else if k < |q| + 5 { assert url[k] == "page="[k - |q|]; }
      else if k < e { assert url[k] == d[k - |q| - 5]; }
      else { assert url[k] == suf[k - e]; }
    }
    assert url[|url| - 1] != '\n';
  }

  // ---------------------------------------------------------------------------
  // The pagination loop
  // ---------------------------------------------------------------------------

  /** What the loop rebuilds each page's URL from, with its limits. */
  datatype Pager = Pager(prefix: string, suffix: string, maxPages: int, force: bool)

  /** `f"{prefix}{page}{suffix}"`. */
  function PageUrl(pg: Pager, page: int): string
  {
    pg.prefix + IntToString(page) + pg.suffix
  }

  /**
   * The loop's variables: `page`, `consecutive_empty`, how many times
   * `ingest_endpoint` was called (the number of its next request), and the
   * run state, whose count is `total_inserted`.
   */
  datatype Scan = Scan(page: int, empty: nat, calls: nat, s: State)

  /** `isinstance(links, dict) and links.get('next') is None`. */
  predicate LinksSayLast(j: Json)
  {
    j.JObj? && Get(j, "links").JObj? && Get(Get(j, "links"), "next") == JNull
  }

  /** `isinstance(meta, dict) and 'last_page' in meta` and `page >= int(meta.get('last_page'))`; an `int()` that raises is ignored. */
  predicate MetaSaysLast(j: Json, page: int)
  {
    j.JObj? && HasKey(Get(j, "meta"), "last_page") &&
    match PyInt(Get(Get(j, "meta"), "last_page"))
    case None => false
    case Some(lastPage) => page >= lastPage
  }

  /** `is_last_page` for a 200 reply; a body that does not parse says nothing. */
  predicate IsLastPage(body: Body, page: int)
  {
    body.Parsed? && (LinksSayLast(body.json) || MetaSaysLast(body.json, page))
  }

  /** What a page did: skipped as permanently missing, missed (no reply, not 200, or nothing inserted), or stored. */
  datatype Outcome = Skipped | Missed | Stored

  /** The loop test: `page <= max_pages and (consecutive_empty < 3 or FORCE_FULL_PAGES)`. */
  predicate Loops(pg: Pager, sc: Scan)
  {
    sc.page <= pg.maxPages && (sc.empty < 3 || pg.force)
  }

  /**
   * One pass of the loop body for page `sc.page`: what it did, the new
   * variables, and whether the page was detected to be the last.
   */
  function PageStep(pg: Pager, health: Health, probe: Probe, step: StepFn, sc: Scan): (r: (Outcome, Scan, bool))
    ensures r.1.page == sc.page + 1
    ensures r.0 == Skipped ==> r.1 == sc.(page := sc.page + 1) && !r.2
    ensures r.0 == Missed ==> r.1.empty == sc.empty + 1
    ensures r.0 == Stored ==> r.1.empty == 0 && r.1.s.0 != sc.s.0
    ensures r.0 != Skipped ==> r.1.calls <= sc.calls + 1
  {
    var url := PageUrl(pg, sc.page);
    if health(url) == Permanent then (Skipped, sc.(page := sc.page + 1), false)
    else
      match probe(url)
      case NoResponse => (Missed, sc.(page := sc.page + 1, empty := sc.empty + 1), false)
      case Got(status, body) =>
        if status != 200 then (Missed, sc.(page := sc.page + 1, empty := sc.empty + 1), false)
        else
          var s' := step(sc.s, Target(CompTable, url), sc.calls);
          var ok := s'.0 != sc.s.0;
          (if ok then Stored else Missed,
           Scan(sc.page + 1, if ok then 0 else sc.empty + 1, sc.calls + 1, s'),
           IsLastPage(body, sc.page))
  }

  /** A run of the loop: the pages' outcomes in order, the final variables, and whether it broke at a detected last page. */
  datatype PageRun = PageRun(log: seq<Outcome>, final: Scan, atLast: bool)

  /** The `while` loop from the variables `sc`; a detected last page ends it unless pages are forced. */
  function Paginate(pg: Pager, health: Health, probe: Probe, step: StepFn, sc: Scan): PageRun
    decreases pg.maxPages - sc.page + 1
  {
    if !Loops(pg, sc) then PageRun([], sc, false)
    else
      var (o, next, isLast) := PageStep(pg, health, probe, step, sc);
      if isLast && !pg.force then PageRun([o], next, true)
      else
        var rest := Paginate(pg, health, probe, step, next);
        PageRun([o] + rest.log, rest.final, rest.atLast)
  }

  /**
   * The loop always ends, by its test or at a detected last page (never when
   * pages are forced), and one page is visited per pass: the final page is
   * the start page plus the number of outcomes, and at most `max_pages + 1`.
   */
  lemma {:induction false} PaginateEnds(pg: Pager, health: Health, probe: Probe, step: StepFn, sc: Scan)
    ensures var r := Paginate(pg, health, probe, step, sc);
            (r.atLast ==> !pg.force && r.log != []) && (!r.atLast ==> !Loops(pg, r.final)) &&
            r.final.page == sc.page + |r.log| &&
            (sc.page <= pg.maxPages + 1 ==> r.final.page <= pg.maxPages + 1)
    decreases pg.maxPages - sc.page + 1
  {
    if Loops(pg, sc) {
      var (o, next, isLast) := PageStep(pg, health, probe, step, sc);
      if !(isLast && !pg.force) {
        PaginateEnds(pg, health, probe, step, next);
      }
    }
  }

  /** With `FORCE_FULL_PAGES`, every page from the start page through `max_pages` is visited. */
  lemma {:induction false} PaginateForced(pg: Pager, health: Health, probe: Probe, step: StepFn, sc: Scan)
    requires pg.force && sc.page <= pg.maxPages + 1
    ensures var r := Paginate(pg, health, probe, step, sc);
            r.final.page == pg.maxPages + 1 && |r.log| == pg.maxPages + 1 - sc.page && !r.atLast
    decreases pg.maxPages - sc.page + 1
  {
    if sc.page <= pg.maxPages {
      var next := PageStep(pg, health, probe, step, sc).1;
      PaginateForced(pg, health, probe, step, next);
    }
  }

  /** How many outcomes of the log are `o`. */
  function CountOf(log: seq<Outcome>, o: Outcome): (n: nat)
    ensures n <= |log|
  {
    if log == [] then 0 else (if log[0] == o then 1 else 0) + CountOf(log[1..], o)
  }

  /** Where the outcomes after the last `Stored` begin (0 when nothing was stored). */
  function SinceStored(log: seq<Outcome>): (i: nat)
    ensures i <= |log| && (i == 0 || log[i - 1] == Stored)
    ensures forall k :: i <= k < |log| ==> log[k] != Stored
  {
    if log == [] then 0
    else
      var rest := log[1..];
      assert forall k :: 1 <= k < |log| ==> log[k] == rest[k - 1];
      if Stored in rest then
        var j := SinceStored(rest);
        assert j > 0;
        1 + j
      else if log[0] == Stored then 1
      else 0
  }

  /** The counter after one more outcome in front of the log, as the loop keeps it. */
  lemma {:induction false} SinceStoredCons(o: Outcome, rest: seq<Outcome>, e0: nat, e1: nat)
    requires e1 == (match o case Skipped => e0 case Missed => e0 + 1 case Stored => 0)
    ensures var log := [o] + rest;
            var i := SinceStored(log);
            var j := SinceStored(rest);
            (if j == 0 then e1 else 0) + CountOf(rest[j..], Missed) ==
            (if i == 0 then e0 else 0) + CountOf(log[i..], Missed)
  {
    var log := [o] + rest;
    assert log[1..] == rest;
    var i := SinceStored(log);
    var j := SinceStored(rest);
    if Stored in rest {
      assert i == j + 1;
      assert log[i..] == rest[j..];
    } else if o == Stored {
      assert i == 1 && j == 0;
      assert log[1..] == rest[0..];
    } else {
      assert i == 0 && j == 0;
      assert rest[0..] == rest;
    }
  }

  /**
   * `consecutive_empty` at the end counts the missed pages since the last
   * stored one (skipped pages leave it as it was), plus its starting value
   * when nothing was stored.
   */
  lemma {:induction false} PaginateCounter(pg: Pager, health: Health, probe: Probe, step: StepFn, sc: Scan)
    ensures var r := Paginate(pg, health, probe, step, sc);
            var i := SinceStored(r.log);
            r.final.empty == (if i == 0 then sc.empty else 0) + CountOf(r.log[i..], Missed)
    decreases pg.maxPages - sc.page + 1
  {
    var r := Paginate(pg, health, probe, step, sc);
    if Loops(pg, sc) {
      var (o, next, isLast) := PageStep(pg, health, probe, step, sc);
      if isLast && !pg.force {
        assert r.log == [o] + [];
        SinceStoredCons(o, [], sc.empty, next.empty);
      } else {
        PaginateCounter(pg, health, probe, step, next);
        var rest := Paginate(pg, health, probe, step, next);
        SinceStoredCons(o, rest.log, sc.empty, next.empty);
      }
    }
  }

  /**
   * For a step that adds at most one True result: `total_inserted` grows by
   * the number of stored pages, `ingest_endpoint` is called once per page
   * that was not skipped, so the insertions are at most the calls, which are
   * at most the pages visited.
   */
  lemma {:induction false} PaginateCounts(pg: Pager, health: Health, probe: Probe, step: StepFn, sc: Scan)
    requires StepBounded(step)
    ensures var r := Paginate(pg, health, probe, step, sc);
            r.final.s.0 == sc.s.0 + CountOf(r.log, Stored) &&
            r.final.calls <= sc.calls + |r.log| - CountOf(r.log, Skipped) &&
            CountOf(r.log, Stored) + CountOf(r.log, Skipped) <= |r.log|
    decreases pg.maxPages - sc.page + 1
  {
    if Loops(pg, sc) {
      var (o, next, isLast) := PageStep(pg, health, probe, step, sc);
      var r := Paginate(pg, health, probe, step, sc);
      assert next.s.0 == sc.s.0 + (if o == Stored then 1 else 0);
      if isLast && !pg.force {
        assert r.log == [o] && r.log[1..] == [];
      } else {
        PaginateCounts(pg, health, probe, step, next);
        var rest := Paginate(pg, health, probe, step, next);
        assert r.log[1..] == rest.log;
      }
    }
  }

  /**
   * The loop of a paged URL: rebuild the page's URL, skip it when reported
   * permanently missing, probe it, ingest it when the probe came back 200,
   * and break at a detected last page unless pages are forced.
   */
  method PaginationLoop(pg: Pager, health: Health, probe: Probe, step: StepFn, sc0: Scan)
    returns (sc: Scan, atLast: bool)
    ensures sc == Paginate(pg, health, probe, step, sc0).final
    ensures atLast == Paginate(pg, health, probe, step, sc0).atLast
  {
    sc := sc0;
    while Loops(pg, sc)
      invariant Paginate(pg, health, probe, step, sc).final == Paginate(pg, health, probe, step, sc0).final
      invariant Paginate(pg, health, probe, step, sc).atLast == Paginate(pg, health, probe, step, sc0).atLast
      decreases pg.maxPages - sc.page + 1
    {
      var o, next, isLast := VisitPage(pg, health, probe, step, sc);
      sc := next;
      if isLast && !pg.force {
        return sc, true;
      }
    }
    atLast := false;
  }

  /** The body of the loop for one page, with its `continue`s. */
  method VisitPage(pg: Pager, health: Health, probe: Probe, step: StepFn, sc: Scan)
    returns (o: Outcome, next: Scan, isLast: bool)
    ensures (o, next, isLast) == PageStep(pg, health, probe, step, sc)
  {
    var url := pg.prefix + IntToString(sc.page) + pg.suffix;
    if health(url) == Permanent {
      return Skipped, sc.(page := sc.page + 1), false;
    }
    var r := probe(url);
    if r.NoResponse? || r.status != 200 {
      return Missed, sc.(page := sc.page + 1, empty := sc.empty + 1), false;
    }
    isLast := IsLastPage(r.body, sc.page);
    var s' := step(sc.s, Target(CompTable, url), sc.calls);
    if s'.0 != sc.s.0 {
      o, next := Stored, Scan(sc.page + 1, 0, sc.calls + 1, s');
    } else {
      o, next := Missed, Scan(sc.page + 1, sc.empty + 1, sc.calls + 1, s');
    }
  }

  // ---------------------------------------------------------------------------
  // One configured URL
  // ---------------------------------------------------------------------------

  /** The pager of a matched paged URL. */
  function PagerOf(m: PagedParts, cfg: Settings): Pager
  {
    Pager(m.prefix, m.suffix, cfg.endPage, cfg.forcePages)
  }

  /**
   * What the body of `main`'s loop does with one URL: the new run state and
   * whether a `format` raised (which ends the script).
   *  - With `page=` in it: the pagination loop when the paged pattern
   *    matches, else a single `ingest_endpoint` of the URL.
   *  - Otherwise: the ids discovered from the URL without its trailing id,
   *    through the URL's template (or `base/{}`); when none are discovered,
   *    `START_ID..END_ID` through the URL's template; when there is no
   *    template either, a single `ingest_endpoint` of the URL.
   */
  function UrlEffect(url: string, cfg: Settings, health: Health, probe: Probe, step: StepFn, s: State): (State, bool)
  {
    if Contains(url, "page=") then
      match PagedUrl(url)
      case Some(m) => (Paginate(PagerOf(m, cfg), health, probe, step, Scan(m.startPage, 0, 0, s)).final.s, false)
      case None => (step(s, Target(CompTable, url), 0), false)
    else
      var base := StripTrailingId(url);
      var ids := DiscoveredIds(probe(base));
      if ids != [] then IdsEffect(CompTable, TemplateOr(url, base), ids, health, step, s)
      else
        match MakeTemplate(url)
        case Some(t) => IdsEffect(CompTable, t, Range(cfg.startId, cfg.endId), health, step, s)
        case None => (step(s, Target(CompTable, url), 0), false)
  }

  /** The range fallback is taken exactly when the URL is not paged, nothing is discovered and the URL has a template. */
  lemma RangeFallback(url: string, cfg: Settings, health: Health, probe: Probe, step: StepFn, s: State)
    requires !Contains(url, "page=") && DiscoveredIds(probe(StripTrailingId(url))) == []
    requires MakeTemplate(url).Some?
    ensures UrlEffect(url, cfg, health, probe, step, s) ==
            IdsEffect(CompTable, MakeTemplate(url).value, Range(cfg.startId, cfg.endId), health, step, s)
  {
  }

  /** The body of `main`'s loop for one URL. */
  method IngestCompetitionUrl(url: string, cfg: Settings, health: Health, probe: Probe, step: StepFn, s: State)
    returns (s': State, crashed: bool)
    ensures (s', crashed) == UrlEffect(url, cfg, health, probe, step, s)
  {
    if Contains(url, "page=") {
      var m := PagedUrl(url);
      if m.Some? {
        var sc, atLast := PaginationLoop(PagerOf(m.value, cfg), health, probe, step, Scan(m.value.startPage, 0, 0, s));
        return sc.s, false;
      }
      return step(s, Target(CompTable, url), 0), false;
    }
    var base := StripTrailingId(url);
    var ids := TryDiscoverIds(probe(base));
    if ids != [] {
      var tried;
      tried, crashed, s' := IngestIdsLoop(CompTable, TemplateOr(url, base), ids, health, step, s);
    } else {
      var t := MakeTemplate(url);
      if t.Some? {
        var tried;
        tried, crashed, s' := IngestIdsLoop(CompTable, t.value, Range(cfg.startId, cfg.endId), health, step, s);
      } else {
        s', crashed := step(s, Target(CompTable, url), 0), false;
      }
    }
  }

  // ---------------------------------------------------------------------------
  // main
  // ---------------------------------------------------------------------------

  /** The configured URLs in order, stopping at the first whose `format` raises. */
  function UrlsEffect(urls: seq<string>, cfg: Settings, health: Health, probe: Probe, step: StepFn, s: State): (State, bool)
  {
    if urls == [] then (s, false)
    else
      var (s1, crashed) := UrlsEffect(urls[..|urls| - 1], cfg, health, probe, step, s);
      if crashed then (s1, true) else UrlEffect(urls[|urls| - 1], cfg, health, probe, step, s1)
  }

  /** For a step that adds at most one True result, the count never decreases and the tables stay the same. */
  lemma {:induction false} UrlsEffectGrows(urls: seq<string>, cfg: Settings, health: Health, probe: Probe, step: StepFn, s: State)
    requires StepBounded(step)
    ensures var r := UrlsEffect(urls, cfg, health, probe, step, s).0; s.0 <= r.0 && r.1.Keys == s.1.Keys
  {
    if urls != [] {
      UrlsEffectGrows(urls[..|urls| - 1], cfg, health, probe, step, s);
      var (s1, crashed) := UrlsEffect(urls[..|urls| - 1], cfg, health, probe, step, s);
      if !crashed {
        UrlEffectGrows(urls[|urls| - 1], cfg, health, probe, step, s1);
      }
    }
  }

  lemma UrlEffectGrows(url: string, cfg: Settings, health: Health, probe: Probe, step: StepFn, s: State)
    requires StepBounded(step)
    ensures var r := UrlEffect(url, cfg, health, probe, step, s).0; s.0 <= r.0 && r.1.Keys == s.1.Keys
  {
    if Contains(url, "page=") {
      if PagedUrl(url).Some? {
        var m := PagedUrl(url).value;
        PaginateGrows(PagerOf(m, cfg), health, probe, step, Scan(m.startPage, 0, 0, s));
      }
    } else {
      var base := StripTrailingId(url);
      var ids := DiscoveredIds(probe(base));
      var t := if ids != [] then TemplateOr(url, base) else MakeTemplate(url).GetOr("");
      var xs := if ids != [] then ids else Range(cfg.startId, cfg.endId);
      if ids != [] || MakeTemplate(url).Some? {
        var stop := FormatStop(t, xs);
        RunBounded(s, 0, TargetsOf(CompTable, TriedUrls(t, xs[..stop], health)), step);
      }
    }
  }

  lemma {:induction false} PaginateGrows(pg: Pager, health: Health, probe: Probe, step: StepFn, sc: Scan)
    requires StepBounded(step)
    ensures var r := Paginate(pg, health, probe, step, sc).final; sc.s.0 <= r.s.0 && r.s.1.Keys == sc.s.1.Keys
    decreases pg.maxPages - sc.page + 1
  {
    if Loops(pg, sc) {
      var (o, next, isLast) := PageStep(pg, health, probe, step, sc);
      if !(isLast && !pg.force) {
        PaginateGrows(pg, health, probe, step, next);
      }
    }
  }

  /** `main`'s loop over the configured URLs, for any step. */
  method IngestAllUrls(urls: seq<string>, cfg: Settings, health: Health, probe: Probe, step: StepFn, s0: State)
    returns (s: State, crashed: bool)
    ensures (s, crashed) == UrlsEffect(urls, cfg, health, probe, step, s0)
  {
    s, crashed := s0, false;
    var i := 0;
    while i < |urls|
      invariant i <= |urls|
      invariant (s, crashed) == UrlsEffect(urls[..i], cfg, health, probe, step, s0)
      invariant crashed ==> (s, crashed) == UrlsEffect(urls, cfg, health, probe, step, s0)
    {
      assert urls[..i + 1][..i] == urls[..i];
      if crashed {
        break;
      }
      s, crashed := IngestCompetitionUrl(urls[i], cfg, health, probe, step, s);
      i := i + 1;
      if crashed {
        CrashStays(urls, i, cfg, health, probe, step, s0);
      }
    }
    if !crashed {
      assert urls[..i] == urls;
    }
  }

  /** Once a URL's `format` raised, the later URLs change nothing. */
  lemma {:induction false} CrashStays(urls: seq<string>, i: nat, cfg: Settings, health: Health, probe: Probe, step: StepFn, s0: State)
    requires i <= |urls| && UrlsEffect(urls[..i], cfg, health, probe, step, s0).1
    ensures UrlsEffect(urls, cfg, health, probe, step, s0) == UrlsEffect(urls[..i], cfg, health, probe, step, s0)
    decreases |urls| - i
  {
    if i < |urls| {
      assert urls[..i + 1][..i] == urls[..i];
      CrashStays(urls, i + 1, cfg, health, probe, step, s0);
    } else {
      assert urls[..i] == urls;
    }
  }

  /**
   * `main()`: the URLs configured for `raw_competition` in order, each
   * `ingest_endpoint` call answering request `k` of its loop with `net(url, k)`;
   * `totalInserted` counts the True results, and `crashed` a `format` that
   * raised. No URLs means nothing is done.
   */
  method IngestCompetitions(urls: seq<string>, cfg: Settings, health: Health, probe: Probe,
                             db0: Db, net: Network, hash: Hasher, raises: nat -> bool)
    returns (totalInserted: nat, crashed: bool, db: Db)
    requires ValidDb(db0)
    ensures ((totalInserted, db), crashed) == UrlsEffect(urls, cfg, health, probe, IngestStepFn(net, hash, raises), (0, db0))
    ensures db.Keys == db0.Keys && ValidDb(db)
    ensures urls == [] ==> totalInserted == 0 && db == db0 && !crashed
  {
    var s;
    s, crashed := IngestAllUrls(urls, cfg, health, probe, IngestStepFn(net, hash, raises), (0, db0));
    totalInserted, db := s.0, s.1;
    UrlsEffectGrows(urls, cfg, health, probe, IngestStepFn(net, hash, raises), (0, db0));
  }
}
