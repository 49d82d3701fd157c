/** The synchronous relational-store helpers of src/hurag_webui/dss/rss.py:
    the memoised pool, `transact` (which pairs statements with data by
    `zip`) and `init_rss`. `dml` there is the same as `Sql.Dml`. */
module Rss {
  import opened Wrappers
  import opened Sql
  import Constants

  type PoolId = nat

  /** The `lru_cache` behind `_pool()`. */
  class PoolCache {
    var cached: Option<PoolId>
    /** Pools built by `mariadb.ConnectionPool`, in order. */
    var created: seq<PoolId>

    constructor ()
      ensures cached == None && created == []
    {
      cached := None;
      created := [];
    }

    /** `_pool()`: the first call builds the pool (`built` is the one the
        driver would build); every later call returns that same pool. */
    method Pool(built: PoolId) returns (p: PoolId)
      modifies this
      ensures old(cached).Some? ==> p == old(cached).value && cached == old(cached) && created == old(created)
      ensures old(cached).None? ==> p == built && cached == Some(built) && created == old(created) + [built]
    {
      if cached.Some? {
        return cached.value;
      }
      cached := Some(built);
      created := created + [built];
      p := built;
    }
  }

  /** Two calls to `_pool()` share one pool, whatever the driver offers the
      second time, and at most one pool is ever built. */
  method PoolShared(cache: PoolCache, fresh1: PoolId, fresh2: PoolId) returns (p1: PoolId, p2: PoolId)
    modifies cache
    ensures p1 == p2
    ensures |cache.created| <= |old(cache.created)| + 1
  {
    p1 := cache.Pool(fresh1);
    p2 := cache.Pool(fresh2);
  }

  /** The calls a `transact` made and what it returned (`None` or an
      exception). */
  datatype Outcome = Outcome(calls: seq<DbCall>, result: Result<()>)

  /** `transact(statements, data)`: `zip(statements, None)` raises
      `TypeError` inside the `try`, which rolls back and re-raises; otherwise
      the zipped pairs run, then commit or roll back. */
  function TransactRun(statements: seq<string>, data: Option<seq<StmtData>>,
                       db: DbCall -> Reply, commitFails: bool): Outcome
  {
    if data.None? then Outcome([Rollback], Err(TypeError("'NoneType' object is not iterable")))
    else
      var c := Finish(RunPairs(Zip(statements, data.value), db), commitFails);
      Outcome(c.calls, if c.outcome.Ok? then Ok(()) else Err(c.outcome.error))
  }

  method Transact(statements: seq<string>, data: Option<seq<StmtData>>,
                  db: DbCall -> Reply, commitFails: bool) returns (r: Outcome)
    ensures r == TransactRun(statements, data, db, commitFails)
  {
    if data.None? {
      return Outcome([Rollback], Err(TypeError("'NoneType' object is not iterable")));
    }
    var calls, total, failed := ExecutePairs(Zip(statements, data.value), db);
    var c := Finish(RunResult(calls, total, failed), commitFails);
    r := Outcome(c.calls, if c.outcome.Ok? then Ok(()) else Err(c.outcome.error));
  }

  function Min(a: nat, b: nat): nat {
    if a < b then a else b
  }

  /** Only the first `min(len(statements), len(data))` statements run: a
      successful `transact` dispatches exactly those, in order, and commits
      once; a failed one ends with a rollback. */
  lemma {:induction false} TransactRunsZippedPrefix(statements: seq<string>, data: seq<StmtData>,
                                                   db: DbCall -> Reply, commitFails: bool)
    ensures var r := TransactRun(statements, Some(data), db, commitFails);
      var n := Min(|statements|, |data|);
      && (r.result.Ok? ==>
            |r.calls| == n + 1 && r.calls[n] == Commit
            && forall i :: 0 <= i < n ==> r.calls[i] == Dispatch(statements[i], data[i]))
      && (r.result.Err? ==> r.calls[|r.calls| - 1] == Rollback)
  {
    var ps := Zip(statements, data);
    RunPairsSpec(ps, db);
    FinishSpec(RunPairs(ps, db), commitFails);
  }

  /** `transact(statements, None)` runs nothing and fails. */
  lemma NoneDataFails(statements: seq<string>, db: DbCall -> Reply, commitFails: bool)
    ensures TransactRun(statements, None, db, commitFails).calls == [Rollback]
    ensures TransactRun(statements, None, db, commitFails).result.Err?
  {
  }

  /** The statement `init_rss` inserts the seed user with, its line breaks
      and indentation collapsed to single spaces. */
  const InsertUser: string := "INSERT INTO users (id, account, username, user_path) VALUES (?, ?, ?, ?)"

  /** The one seed user; `id` is the `uuid7()` drawn at that moment. */
  function SeedUser(id: string): Row {
    [SStr(id), SStr("hurag"), SStr("HuRAG项目组"), SStr("/国家局（总公司）/浙江省局（公司）/湖州市局（公司）")]
  }

  function ScriptTexts(scripts: seq<Constants.Script>): (r: seq<string>)
    ensures |r| == |scripts| && forall i :: 0 <= i < |r| ==> r[i] == Constants.ScriptText(scripts[i])
  {
    seq(|scripts|, i requires 0 <= i < |scripts| => Constants.ScriptText(scripts[i]))
  }

  /** `init_rss()`: run every script with an empty tuple in one
      transaction, then insert the seed user with `dml`. A failing
      transaction raises before the insert. */
  method InitRss(id: string, db: DbCall -> Reply, scriptCommitFails: bool, insertCommitFails: bool)
    returns (calls: seq<DbCall>, result: Result<()>)
    ensures var t := TransactRun(ScriptTexts(Constants.InitRssScripts),
                                 Some(EmptyTuples(|Constants.InitRssScripts|)), db, scriptCommitFails);
      var d := Dml(InsertUser, Batch([SeedUser(id)]), db, insertCommitFails);
      && (t.result.Err? ==> calls == t.calls && result == t.result)
      && (t.result.Ok? ==> calls == t.calls + d.calls
                            && result == (if d.outcome.Ok? then Ok(()) else Err(d.outcome.error)))
  {
    var scripts := ScriptTexts(Constants.InitRssScripts);
    var data := EmptyTuples(|Constants.InitRssScripts|);
    var t := Transact(scripts, Some(data), db, scriptCommitFails);
    if t.result.Err? {
      return t.calls, t.result;
    }
    var d := Dml(InsertUser, Batch([SeedUser(id)]), db, insertCommitFails);
    calls := t.calls + d.calls;
    result := if d.outcome.Ok? then Ok(()) else Err(d.outcome.error);
  }

  /** What a successful `init_rss` sends: each of the eight scripts once with
      an empty tuple, in list order, a commit, then one `executemany` with
      exactly one row, the seed user, and a second commit. */
  lemma InitRssCalls(id: string, db: DbCall -> Reply, scriptCommitFails: bool, insertCommitFails: bool)
    ensures var scripts := ScriptTexts(Constants.InitRssScripts);
      var t := TransactRun(scripts, Some(EmptyTuples(|Constants.InitRssScripts|)), db, scriptCommitFails);
      var d := Dml(InsertUser, Batch([SeedUser(id)]), db, insertCommitFails);
      t.result.Ok? && d.outcome.Ok? ==>
        var calls := t.calls + d.calls;
        |calls| == 11
        && (forall i :: 0 <= i < 8 ==> calls[i] == Execute(Constants.ScriptText(Constants.InitRssScripts[i]), []))
        && calls[8] == Commit
        && calls[9] == ExecuteMany(InsertUser, [SeedUser(id)])
        && calls[10] == Commit
  {
    var scripts := ScriptTexts(Constants.InitRssScripts);
    var data := EmptyTuples(|Constants.InitRssScripts|);
    TransactRunsZippedPrefix(scripts, data, db, scriptCommitFails);
  }
}
