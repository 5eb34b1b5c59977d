/**
 * `src/silver.py` `apply_ddl`: split the DDL file into statements and run
 * them one by one, recording for each whether it ran.
 */
module SilverDdl {
  import opened Wrappers
  import opened PyText
  import SqlSplit

  /** `{'ok': True, 'stmt': …}` or `{'ok': False, 'stmt': …, 'error': …}`. */
  datatype DdlResult = DdlResult(ok: bool, stmt: string, error: Option<string>)

  /** `cur.execute(s)` for the `i`-th statement: None when it runs, the message when it raises. */
  type Executor = (nat, string) -> Option<string>

  function ResultOf(s: string, outcome: Option<string>): (r: DdlResult)
    ensures r.ok <==> outcome.None?
    ensures r.stmt == FirstLine(s)
    ensures r.error == outcome
  {
    match outcome
    case None => DdlResult(true, FirstLine(s), None)
    case Some(e) => DdlResult(false, FirstLine(s), Some(e))
  }

  /**
   * The execution loop of `apply_ddl` over already split statements, in one
   * transaction: a failure is caught without a rollback, so every later
   * statement raises the aborted-transaction error, and `conn.commit()` then
   * rolls everything back. `committed` is what the commit makes durable.
   */
  method RunStatements(statements: seq<string>, exec: Executor) returns (results: seq<DdlResult>, committed: seq<string>)
    ensures |results| == |statements|
    ensures forall i :: 0 <= i < |results| ==>
              results[i] == ResultOf(statements[i], SqlSplit.Verdict(statements, exec, i))
    ensures committed == SqlSplit.Committed(statements, exec)
  {
    results := [];
    var aborted := false;
    var i := 0;
    ghost var f := SqlSplit.FirstFailure(statements, exec, 0);
    while i < |statements|
      invariant 0 <= i <= |statements|
      invariant |results| == i
      invariant aborted <==> f < i
      invariant forall k :: 0 <= k < i ==> results[k] == ResultOf(statements[k], SqlSplit.Verdict(statements, exec, k))
    {
      var s := statements[i];
      var outcome := if aborted then Some(SqlSplit.AbortedError) else exec(i, s);
      results := results + [ResultOf(s, outcome)];
      aborted := aborted || outcome.Some?;
      i := i + 1;
    }
    committed := if aborted then [] else statements;
  }

  /**
   * One result per statement, in order, with the statement's first line: ok
   * exactly for the statements before the first one the server rejects,
   * that one carrying the server's error and every later one the
   * aborted-transaction error; the commit applies every statement when all
   * ran and none otherwise.
   */
  method ApplyDdl(ddl: string, exec: Executor) returns (results: seq<DdlResult>, committed: seq<string>)
    ensures var stmts := SqlSplit.Statements(ddl);
            var f := SqlSplit.FirstFailure(stmts, exec, 0);
            |results| == |stmts| &&
            (forall i :: 0 <= i < |results| ==>
               results[i].stmt == FirstLine(stmts[i]) &&
               (results[i].ok <==> i < f) &&
               (i == f ==> results[i].error == exec(i, stmts[i])) &&
               (i > f ==> results[i].error == Some(SqlSplit.AbortedError))) &&
            committed == (if f == |stmts| then stmts else [])
  {
    var statements := SqlSplit.SplitStatements(ddl);
    results, committed := RunStatements(statements, exec);
  }
}
