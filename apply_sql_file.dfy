/**
 * `scripts/apply_sql_file.py` and its copy `scripts/db/apply_sql_file.py`:
 * `apply_file` splits a SQL file and runs each statement, collecting
 * `(ok, info)` pairs.
 */
module ApplySqlFile {
  import opened Wrappers
  import opened PyText
  import SqlSplit

  /** `cur.execute(s)` for the `i`-th statement: None when it runs, `str(e)` when it raises. */
  type Executor = (nat, string) -> Option<string>

  /** `(True, s.split('\n', 1)[0])` or `(False, str(e))`. */
  function Outcome(s: string, outcome: Option<string>): (bool, string)
  {
    match outcome
    case None => (true, FirstLine(s))
    case Some(e) => (false, e)
  }

  /**
   * The execution loop of `apply_file` over already split statements, inside
   * `with conn:` (one transaction, committed on leaving the block): a failure
   * is caught without a rollback, so every later statement raises the
   * aborted-transaction error and the commit then rolls everything back.
   * `committed` is what the commit makes durable.
   */
  method RunStatements(stmts: seq<string>, exec: Executor) returns (results: seq<(bool, string)>, committed: seq<string>)
    ensures |results| == |stmts|
    ensures forall i :: 0 <= i < |results| ==> results[i] == Outcome(stmts[i], SqlSplit.Verdict(stmts, exec, i))
    ensures committed == SqlSplit.Committed(stmts, exec)
  {
    results := [];
    var aborted := false;
    var i := 0;
    ghost var f := SqlSplit.FirstFailure(stmts, exec, 0);
    while i < |stmts|
      invariant 0 <= i <= |stmts|
      invariant |results| == i
      invariant aborted <==> f < i
      invariant forall k :: 0 <= k < i ==> results[k] == Outcome(stmts[k], SqlSplit.Verdict(stmts, exec, k))
    {
      var s := stmts[i];
      var outcome := if aborted then Some(SqlSplit.AbortedError) else exec(i, s);
      results := results + [Outcome(s, outcome)];
      aborted := aborted || outcome.Some?;
      i := i + 1;
    }
    committed := if aborted then [] else stmts;
  }

  /**
   * One `(ok, info)` pair per statement, in order: `(True, first line)` for
   * the statements before the first one the server rejects, its error for
   * that one, and the aborted-transaction error for every later one; the
   * commit applies every statement when all ran and none otherwise.
   */
  method ApplyFile(sql: string, exec: Executor) returns (results: seq<(bool, string)>, committed: seq<string>)
    ensures var stmts := SqlSplit.Statements(sql);
            var f := SqlSplit.FirstFailure(stmts, exec, 0);
            |results| == |stmts| &&
            (forall i :: 0 <= i < |results| ==>
               (results[i].0 <==> i < f) &&
               (i < f ==> results[i].1 == FirstLine(stmts[i])) &&
               (i == f ==> results[i].1 == exec(i, stmts[i]).value) &&
               (i > f ==> results[i].1 == SqlSplit.AbortedError)) &&
            committed == (if f == |stmts| then stmts else [])
  {
    var stmts := SqlSplit.SplitStatements(sql);
    results, committed := RunStatements(stmts, exec);
  }
}
