/**
 * The naive SQL script splitter shared by `src/silver.py` (`apply_ddl`),
 * `scripts/apply_sql_file.py` and `scripts/db/apply_sql_file.py`
 * (`apply_file`): drop comment lines, close a statement at every line that
 * contains a `;`, strip it and its trailing semicolons, and keep a non-blank
 * tail as the last statement.
 */
module SqlSplit {
  import opened Wrappers
  import opened PyText

  /** `line.strip().startswith('--')`. */
  predicate IsComment(line: string)
  {
    StartsWith(Strip(line), "--")
  }

  predicate HasSemicolon(line: string)
  {
    HasChar(line, ';')
  }

  /** The lines the splitter keeps, in order. */
  function Kept(lines: seq<string>): (k: seq<string>)
    ensures |k| <= |lines|
    ensures forall l :: l in k ==> l in lines && !IsComment(l)
  {
    if lines == [] then []
    else
      var pre := Kept(lines[..|lines| - 1]);
      var l := lines[|lines| - 1];
      if IsComment(l) then pre else pre + [l]
  }

  /**
   * The kept lines cut after every line containing `;`: the closed groups and
   * the open tail.
   */
  function Groups(kept: seq<string>): (r: (seq<seq<string>>, seq<string>))
  {
    if kept == [] then ([], [])
    else
      var (closed, cur) := Groups(kept[..|kept| - 1]);
      var l := kept[|kept| - 1];
      if HasSemicolon(l) then (closed + [cur + [l]], []) else (closed, cur + [l])
  }

  /** `while stmt.endswith(';'): stmt = stmt[:-1].rstrip()`. */
  function TrimSemicolons(s: string): (r: string)
    ensures !EndsWith(r, ";")
    ensures |r| <= |s| && r == s[..|r|]
    decreases |s|
  {
    if EndsWith(s, ";") then
      var t := TrimSemicolons(RStrip(s[..|s| - 1]));
      assert RStrip(s[..|s| - 1]) == s[..|RStrip(s[..|s| - 1])|];
      t
    else s
  }

  /** The statement text of a closed group. */
  function CloseGroup(g: seq<string>): string
  {
    TrimSemicolons(Strip(Join(g, "\n")))
  }

  /** `if stmt: statements.append(stmt)`. */
  function Emit(s: string): seq<string>
  {
    if s != "" then [s] else []
  }

  function CloseAll(closed: seq<seq<string>>): seq<string>
  {
    if closed == [] then [] else CloseAll(closed[..|closed| - 1]) + Emit(CloseGroup(closed[|closed| - 1]))
  }

  /** The tail after the loop: `if cur_lines: stmt = '\n'.join(cur_lines).strip(); if stmt: …`. */
  function Tail(cur: seq<string>): seq<string>
  {
    if cur == [] then [] else Emit(Strip(Join(cur, "\n")))
  }

  /** The statements of a script, by the reference reading: filter, cut, clean. */
  function Statements(text: string): seq<string>
  {
    StatementsOfLines(SplitLines(text))
  }

  function StatementsOfLines(lines: seq<string>): seq<string>
  {
    var g := Groups(Kept(lines));
    CloseAll(g.0) + Tail(g.1)
  }

  /** The clean-up loop of a closed statement. */
  method TrimTrailingSemicolons(s: string) returns (stmt: string)
    ensures stmt == TrimSemicolons(s)
  {
    stmt := s;
    while EndsWith(stmt, ";")
      invariant TrimSemicolons(stmt) == TrimSemicolons(s)
      decreases |stmt|
    {
      stmt := RStrip(stmt[..|stmt| - 1]);
    }
  }

  lemma KeptStep(lines: seq<string>, i: nat)
    requires i < |lines|
    ensures Kept(lines[..i + 1]) == if IsComment(lines[i]) then Kept(lines[..i]) else Kept(lines[..i]) + [lines[i]]
  {
    assert lines[..i + 1][..i] == lines[..i];
  }

  lemma GroupsStep(kept: seq<string>, l: string)
    ensures Groups(kept + [l]) ==
      var (closed, cur) := Groups(kept);
      if HasSemicolon(l) then (closed + [cur + [l]], []) else (closed, cur + [l])
  {
    assert (kept + [l])[..|kept + [l]| - 1] == kept;
  }

  lemma CloseAllStep(closed: seq<seq<string>>, g: seq<string>)
    ensures CloseAll(closed + [g]) == CloseAll(closed) + Emit(CloseGroup(g))
  {
    assert (closed + [g])[..|closed + [g]| - 1] == closed;
  }

  /** Where the splitting loop stands after the first `i` lines. */
  ghost predicate SplitUpTo(lines: seq<string>, i: nat, closed: seq<seq<string>>, curLines: seq<string>, stmts: seq<string>)
    requires i <= |lines|
  {
    (closed, curLines) == Groups(Kept(lines[..i])) && stmts == CloseAll(closed)
  }

  /** One line of the splitting loop: a comment is dropped, a `;` line closes the statement. */
  method SplitLine(lines: seq<string>, i: nat, ghost closed: seq<seq<string>>, curLines: seq<string>, stmts: seq<string>)
    returns (ghost closed': seq<seq<string>>, curLines': seq<string>, stmts': seq<string>)
    requires i < |lines| && SplitUpTo(lines, i, closed, curLines, stmts)
    ensures SplitUpTo(lines, i + 1, closed', curLines', stmts')
  {
    var line := lines[i];
    KeptStep(lines, i);
    closed', curLines', stmts' := closed, curLines, stmts;
    if !IsComment(line) {
      GroupsStep(Kept(lines[..i]), line);
      curLines' := curLines + [line];
      if HasSemicolon(line) {
        var stmt := TrimTrailingSemicolons(Strip(Join(curLines', "\n")));
        CloseAllStep(closed, curLines');
        closed' := closed + [curLines'];
        if stmt != "" {
          stmts' := stmts + [stmt];
        }
        curLines' := [];
      }
    }
  }

  /** The splitting loop, with its `cur_lines` buffer reset at each `;` line. */
  method SplitStatements(text: string) returns (stmts: seq<string>)
    ensures stmts == Statements(text)
  {
    var lines := SplitLines(text);
    stmts := [];
    var curLines: seq<string> := [];
    ghost var closed: seq<seq<string>> := [];
    var i := 0;
    while i < |lines|
      invariant 0 <= i <= |lines|
      invariant SplitUpTo(lines, i, closed, curLines, stmts)
    {
      closed, curLines, stmts := SplitLine(lines, i, closed, curLines, stmts);
      i := i + 1;
    }
    assert lines[..i] == lines;
    if curLines != [] {
      var stmt := Strip(Join(curLines, "\n"));
      if stmt != "" {
        stmts := stmts + [stmt];
      }
    }
  }

  function Flatten(gs: seq<seq<string>>): seq<string>
  {
    if gs == [] then [] else Flatten(gs[..|gs| - 1]) + gs[|gs| - 1]
  }

  /** The number of lines containing a `;`. */
  function SemicolonLines(ls: seq<string>): nat
  {
    if ls == [] then 0 else SemicolonLines(ls[..|ls| - 1]) + (if HasSemicolon(ls[|ls| - 1]) then 1 else 0)
  }

  /** A closed group: its last line has a `;` and no earlier line does. */
  predicate ClosedGroup(g: seq<string>)
  {
    g != [] && HasSemicolon(g[|g| - 1]) && forall k :: 0 <= k < |g| - 1 ==> !HasSemicolon(g[k])
  }

  /**
   * The groups cut the kept lines exactly: read in order they are the kept
   * lines, every closed group ends at its only `;` line, the tail has none,
   * and there is one closed group per `;` line.
   */
  lemma {:induction false} GroupsPartition(kept: seq<string>)
    ensures var (closed, cur) := Groups(kept);
            Flatten(closed) + cur == kept &&
            (forall g :: g in closed ==> ClosedGroup(g)) &&
            (forall k :: 0 <= k < |cur| ==> !HasSemicolon(cur[k])) &&
            |closed| == SemicolonLines(kept)
  {
    if kept != [] {
      var pre := kept[..|kept| - 1];
      var l := kept[|kept| - 1];
      GroupsPartition(pre);
      var (closed, cur) := Groups(pre);
      assert kept == pre + [l];
      if HasSemicolon(l) {
        var g := cur + [l];
        assert ClosedGroup(g);
        assert (closed + [g])[..|closed|] == closed;
        assert Flatten(closed + [g]) == Flatten(closed) + g;
      }
    }
  }

  lemma NoCharInJoin(parts: seq<string>, sep: string, c: char)
    requires forall k :: 0 <= k < |parts| ==> !HasChar(parts[k], c)
    requires !HasChar(sep, c)
    ensures !HasChar(Join(parts, sep), c)
  {
    if |parts| > 1 {
      NoCharInJoin(parts[1..], sep, c);
      var j := Join(parts[1..], sep);
      var s := parts[0] + sep + j;
      forall i | 0 <= i < |s| ensures s[i] != c {
        if i < |parts[0]| { assert s[i] == parts[0][i]; }
        else if i < |parts[0]| + |sep| { assert s[i] == sep[i - |parts[0]|]; }
        else { assert s[i] == j[i - |parts[0]| - |sep|]; }
      }
    }
  }

  lemma NoCharInStrip(s: string, c: char)
    requires !HasChar(s, c)
    ensures !HasChar(Strip(s), c)
  {
    var l := LStrip(s);
    var r := RStrip(l);
    forall i | 0 <= i < |r| ensures r[i] != c {
      assert r[i] == l[i] == s[|s| - |l| + i];
    }
  }

  lemma {:induction false} CloseAllClean(closed: seq<seq<string>>)
    ensures forall s :: s in CloseAll(closed) ==> s != "" && !EndsWith(s, ";")
  {
    if closed != [] {
      var init := closed[..|closed| - 1];
      CloseAllClean(init);
      var e := Emit(CloseGroup(closed[|closed| - 1]));
      assert forall s :: s in e ==> s != "" && !EndsWith(s, ";");
      assert CloseAll(closed) == CloseAll(init) + e;
    }
  }

  /** The open tail of the groups holds no `;` line. */
  lemma GroupsTailOpen(kept: seq<string>)
    ensures forall k :: 0 <= k < |Groups(kept).1| ==> !HasSemicolon(Groups(kept).1[k])
  {
    GroupsPartition(kept);
  }

  /** A tail without `;` lines yields at most one statement, non-empty and not ending with `;`. */
  lemma TailClean(cur: seq<string>)
    requires forall k :: 0 <= k < |cur| ==> !HasSemicolon(cur[k])
    ensures forall s :: s in Tail(cur) ==> s != "" && !EndsWith(s, ";")
  {
    if cur != [] {
      NoCharInJoin(cur, "\n", ';');
      NoCharInStrip(Join(cur, "\n"), ';');
    }
  }

  /** Every statement is non-empty and does not end with `;`. */
  lemma StatementsClean(lines: seq<string>)
    ensures forall s :: s in StatementsOfLines(lines) ==> s != "" && !EndsWith(s, ";")
  {
    var gr := Groups(Kept(lines));
    GroupsTailOpen(Kept(lines));
    CloseAllClean(gr.0);
    TailClean(gr.1);
  }

  /**
   * No comment line takes part in a statement: every line of every group, and
   * of the tail, is a non-comment line of the script.
   */
  lemma CommentsDropped(lines: seq<string>)
    ensures var gr := Groups(Kept(lines));
            (forall g, l :: g in gr.0 && l in g ==> l in lines && !IsComment(l)) &&
            (forall l :: l in gr.1 ==> l in lines && !IsComment(l))
  {
    var kept := Kept(lines);
    GroupsPartition(kept);
    var gr := Groups(kept);
    forall g, l | g in gr.0 && l in g ensures l in kept {
      FlattenContains(gr.0, g, l);
    }
    assert forall l :: l in gr.1 ==> l in kept;
  }

  lemma {:induction false} FlattenContains(gs: seq<seq<string>>, g: seq<string>, l: string)
    requires g in gs && l in g
    ensures l in Flatten(gs)
  {
    var last := gs[|gs| - 1];
    if g == last {
    } else {
      assert g in gs[..|gs| - 1];
      FlattenContains(gs[..|gs| - 1], g, l);
    }
  }

  lemma CloseAllLength(closed: seq<seq<string>>)
    ensures |CloseAll(closed)| <= |closed|
  {
    if closed != [] { CloseAllLength(closed[..|closed| - 1]); }
  }

  /** At most one statement per kept `;` line, plus the tail. */
  lemma StatementCount(lines: seq<string>)
    ensures |StatementsOfLines(lines)| <= SemicolonLines(Kept(lines)) + 1
  {
    var kept := Kept(lines);
    var gr := Groups(kept);
    GroupsPartition(kept);
    CloseAllLength(gr.0);
  }

  // ---------------------------------------------------------------------------
  // Running the statements in one transaction
  // ---------------------------------------------------------------------------

  /**
   * The text of the error every statement raises once an earlier one has
   * failed in the same transaction: a caught error without a rollback leaves
   * the transaction aborted until it ends.
   */
  const AbortedError: string := "current transaction is aborted, commands ignored until end of transaction block\n"

  /** The index of the first statement the server rejects in a healthy transaction, or `|stmts|`. */
  function FirstFailure(stmts: seq<string>, exec: (nat, string) -> Option<string>, i: nat): (f: nat)
    requires i <= |stmts|
    ensures i <= f <= |stmts|
    ensures forall k :: i <= k < f ==> exec(k, stmts[k]).None?
    ensures f < |stmts| ==> exec(f, stmts[f]).Some?
    decreases |stmts| - i
  {
    if i == |stmts| || exec(i, stmts[i]).Some? then i else FirstFailure(stmts, exec, i + 1)
  }

  /**
   * What `cur.execute` of statement `i` does in the script's transaction:
   * the server's own verdict up to the first failure, the aborted-transaction
   * error after it.
   */
  function Verdict(stmts: seq<string>, exec: (nat, string) -> Option<string>, i: nat): Option<string>
    requires i < |stmts|
  {
    if i <= FirstFailure(stmts, exec, 0) then exec(i, stmts[i]) else Some(AbortedError)
  }

  /** The statements the final commit makes durable: all of them, or none once one failed. */
  function Committed(stmts: seq<string>, exec: (nat, string) -> Option<string>): seq<string>
  {
    if FirstFailure(stmts, exec, 0) == |stmts| then stmts else []
  }

  /** After a failed statement every later one fails too, and the commit then applies nothing. */
  lemma FailureSticks(stmts: seq<string>, exec: (nat, string) -> Option<string>, i: nat, j: nat)
    requires i < j < |stmts| && Verdict(stmts, exec, i).Some?
    ensures Verdict(stmts, exec, j) == Some(AbortedError)
    ensures Committed(stmts, exec) == []
  {
  }

  /** The commit applies every statement exactly when each one runs. */
  lemma CommittedAll(stmts: seq<string>, exec: (nat, string) -> Option<string>)
    ensures Committed(stmts, exec) == stmts <==>
            stmts == [] || forall i :: 0 <= i < |stmts| ==> Verdict(stmts, exec, i).None?
  {
    var f := FirstFailure(stmts, exec, 0);
    if f < |stmts| {
      assert Verdict(stmts, exec, f).Some?;
    }
  }
}
