/** The cursor protocol shared by src/hurag_webui/dbs.py and
    src/hurag_webui/dss/rss.py: how a statement and its `data` turn into a
    cursor call, how a run of statements is executed, and how the outcome
    decides between commit and rollback. The database itself is a parameter
    `db` that gives the reply to each cursor call. */
module Sql {
  import opened Wrappers

  /** A value bound to a statement parameter; timestamps are opaque. */
  datatype SqlValue = SNull | SStr(s: string) | SInt(i: int) | STime(t: nat)

  type Row = seq<SqlValue>

  /** The `data` given for one statement: a tuple, a list of tuples, or
      `None`. */
  datatype StmtData = Params(values: Row) | Batch(rows: seq<Row>) | NoData

  datatype DbCall =
    | Execute(statement: string, params: Row)
    | ExecuteMany(statement: string, rows: seq<Row>)
    | Commit
    | Rollback

  /** The database's answer to an execute call: the cursor's `rowcount`
      afterwards, or an exception. */
  datatype Reply = Affected(rowcount: int) | Fails

  /** The call made for one statement: `executemany` exactly when `data` is
      a list, and otherwise `execute(statement, data or ())`. */
  function Dispatch(statement: string, data: StmtData): (c: DbCall)
    ensures c.ExecuteMany? <==> data.Batch?
    ensures data.Batch? ==> c == ExecuteMany(statement, data.rows)
    ensures data.Params? ==> c == Execute(statement, data.values)
    ensures data.NoData? ==> c == Execute(statement, [])
  {
    match data
    case Batch(rows) => ExecuteMany(statement, rows)
    case Params(values) => Execute(statement, values)
    case NoData => Execute(statement, [])
  }

  /** Python's `zip(xs, ys)`: pairs up to the shorter length. */
  function Zip<A, B>(xs: seq<A>, ys: seq<B>): (r: seq<(A, B)>)
    ensures |r| == if |xs| < |ys| then |xs| else |ys|
    ensures forall i :: 0 <= i < |r| ==> r[i] == (xs[i], ys[i])
  {
    if xs == [] || ys == [] then [] else [(xs[0], ys[0])] + Zip(xs[1..], ys[1..])
  }

  /** `[()] * n`. */
  function EmptyTuples(n: nat): (r: seq<StmtData>)
    ensures |r| == n && forall i :: 0 <= i < n ==> r[i] == Params([])
  {
    seq(n, _ => Params([]))
  }

  /** The cursor calls made for a run of (statement, data) pairs, the sum of
      the row counts, and whether a call raised (execution stops there). */
  datatype RunResult = RunResult(calls: seq<DbCall>, total: int, failed: bool)

  function RunPairs(ps: seq<(string, StmtData)>, db: DbCall -> Reply): RunResult
    decreases |ps|
  {
    if ps == [] then RunResult([], 0, false)
    else
      var before := RunPairs(ps[..|ps| - 1], db);
      if before.failed then before
      else
        var c := Dispatch(ps[|ps| - 1].0, ps[|ps| - 1].1);
        match db(c)
        case Fails => RunResult(before.calls + [c], before.total, true)
        case Affected(n) => RunResult(before.calls + [c], before.total + n, false)
  }

  /** The row counts of the statements run, summed. */
  function SumReplies(calls: seq<DbCall>, db: DbCall -> Reply): int {
    if calls == [] then 0
    else
      var last := match db(calls[|calls| - 1]) case Affected(n) => n case Fails => 0;
      SumReplies(calls[..|calls| - 1], db) + last
  }

  /** A run without failure makes one call per pair, in order, each as
      `Dispatch` says, and its total is the sum of their row counts. A
      failed run stops at the first call that raised. */
  lemma {:induction false} RunPairsSpec(ps: seq<(string, StmtData)>, db: DbCall -> Reply)
    ensures var r := RunPairs(ps, db);
      |r.calls| <= |ps|
      && (forall i :: 0 <= i < |r.calls| ==> r.calls[i] == Dispatch(ps[i].0, ps[i].1))
      && (forall i :: 0 <= i < |r.calls| - 1 ==> db(r.calls[i]).Affected?)
      && (!r.failed ==> |r.calls| == |ps| && r.total == SumReplies(r.calls, db))
      && (r.failed ==> |r.calls| > 0 && db(r.calls[|r.calls| - 1]).Fails?)
      && (ps != [] && !r.failed ==> db(r.calls[|r.calls| - 1]).Affected?)
    decreases |ps|
  {
    if ps != [] {
      var prefix := ps[..|ps| - 1];
      RunPairsSpec(prefix, db);
      var before := RunPairs(prefix, db);
      if !before.failed {
        var c := Dispatch(ps[|ps| - 1].0, ps[|ps| - 1].1);
        assert (before.calls + [c])[..|before.calls|] == before.calls;
      }
    }
  }

  /** The run fails exactly when one of its statements raises. */
  lemma RunPairsFailsIff(ps: seq<(string, StmtData)>, db: DbCall -> Reply)
    ensures !RunPairs(ps, db).failed <==> forall i :: 0 <= i < |ps| ==> db(Dispatch(ps[i].0, ps[i].1)).Affected?
  {
    RunPairsSpec(ps, db);
    var r := RunPairs(ps, db);
    if r.failed {
      var j := |r.calls| - 1;
      assert db(Dispatch(ps[j].0, ps[j].1)).Fails?;
    }
  }

  /** The loop `for st, dt in pairs: <dispatch>; rowcount += cur.rowcount`
      as both modules run it: it stops at the first call that raises. */
  method ExecutePairs(ps: seq<(string, StmtData)>, db: DbCall -> Reply)
    returns (calls: seq<DbCall>, total: int, failed: bool)
    ensures RunResult(calls, total, failed) == RunPairs(ps, db)
  {
    calls, total, failed := [], 0, false;
    var i := 0;
    while i < |ps|
      invariant 0 <= i <= |ps|
      invariant RunResult(calls, total, failed) == RunPairs(ps[..i], db)
    {
      if failed {
        assert RunPairs(ps[..i + 1], db) == RunPairs(ps[..i], db) by {
          assert ps[..i + 1][..i] == ps[..i];
        }
      } else {
        var c := Dispatch(ps[i].0, ps[i].1);
        calls := calls + [c];
        assert ps[..i + 1][..i] == ps[..i];
        match db(c)
        case Fails => failed := true;
        case Affected(n) => total := total + n;
      }
      i := i + 1;
    }
    assert ps[..|ps|] == ps;
  }

  /** A failed run whose prefix stays failed as more pairs are appended. */
  lemma {:induction false} FailedRunIsFinal(ps: seq<(string, StmtData)>, qs: seq<(string, StmtData)>, db: DbCall -> Reply)
    requires RunPairs(ps, db).failed
    ensures RunPairs(ps + qs, db) == RunPairs(ps, db)
    decreases |qs|
  {
    if qs != [] {
      var front := qs[..|qs| - 1];
      assert (ps + qs)[..|ps + qs| - 1] == ps + front;
      FailedRunIsFinal(ps, front, db);
      assert ps + qs != [];
    } else {
      assert ps + qs == ps;
    }
  }

  /** The shape shared by `dml` and `transact` in both modules: after the
      statements ran, commit; if anything raised (a statement or the commit
      itself), roll back and re-raise. */
  datatype Completed = Completed(calls: seq<DbCall>, outcome: Result<int>)

  function Finish(run: RunResult, commitFails: bool): Completed
  {
    if run.failed then Completed(run.calls + [Rollback], Err(DatabaseError))
    else if commitFails then Completed(run.calls + [Commit, Rollback], Err(DatabaseError))
    else Completed(run.calls + [Commit], Ok(run.total))
  }

  /** `Finish` commits exactly once on success and returns the summed row
      count; on any failure its last call is a rollback and the error is
      re-raised. */
  lemma FinishSpec(run: RunResult, commitFails: bool)
    ensures var Completed(calls, outcome) := Finish(run, commitFails);
      (outcome.Ok? <==> !run.failed && !commitFails)
      && (outcome.Ok? ==> outcome.value == run.total && calls == run.calls + [Commit])
      && (outcome.Err? ==> calls[|calls| - 1] == Rollback)
      && calls[..|run.calls|] == run.calls
  {
  }

  /** `dml(statement, data)` (dbs.py:208-234, identically dss/rss.py:28-42):
      one dispatched call, then commit and return `cur.rowcount`, or roll
      back and re-raise. */
  function Dml(statement: string, data: StmtData, db: DbCall -> Reply, commitFails: bool)
    : (r: Completed)
    ensures |r.calls| >= 2 && r.calls[0] == Dispatch(statement, data)
    ensures r.outcome.Ok? <==> db(Dispatch(statement, data)).Affected? && !commitFails
    ensures r.outcome.Ok? ==>
      (r.outcome.value == db(Dispatch(statement, data)).rowcount && r.calls == [Dispatch(statement, data), Commit])
    ensures r.outcome.Err? ==> r.calls[|r.calls| - 1] == Rollback
  {
    var c := Dispatch(statement, data);
    var run := match db(c)
      case Fails => RunResult([c], 0, true)
      case Affected(n) => RunResult([c], n, false);
    Finish(run, commitFails)
  }
}
