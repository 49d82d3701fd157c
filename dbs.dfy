/** The asynchronous relational-store helpers of src/hurag_webui/dbs.py: the
    memoised connection pool, the `with_rdb` decorator that injects a
    connection and a cursor, and `transact`. (`dml` is `Sql.Dml`.) */
module Dbs {
  import opened Wrappers
  import opened Sql

  type PoolId = nat

  /** The module globals `_pool` and the record of what was done to pools. */
  class PoolRegistry {
    var pool: Option<PoolId>
    /** Pools built by `aiomysql.create_pool`, in order. */
    var created: seq<PoolId>
    /** Pools on which `close()` was called, in order. */
    var closed: seq<PoolId>

    constructor ()
      ensures pool == None && created == [] && closed == []
    {
      pool := None;
      created := [];
      closed := [];
    }

    /** `get_pool()`. An existing pool is returned as it is; otherwise
        `create_pool` is called (`made` is what it returns, `None` when it
        raises) and its pool is stored. */
    method GetPool(made: Option<PoolId>) returns (r: Result<PoolId>)
      modifies this
      ensures old(pool).Some? ==> r == Ok(old(pool).value) && pool == old(pool) && created == old(created)
      ensures old(pool).None? && made.Some? ==>
        r == Ok(made.value) && pool == made && created == old(created) + [made.value]
      ensures old(pool).None? && made.None? ==> r.Err? && pool == None && created == old(created)
      ensures closed == old(closed)
    {
      if pool.Some? {
        return Ok(pool.value);
      }
      if made.None? {
        return Err(DatabaseError);
      }
      pool := made;
      created := created + [made.value];
      r := Ok(made.value);
    }

    /** `close_pool()`: with a pool, `close()` it, await `wait_closed()`
        (which may raise, `waitFails`) and forget it; without one, do
        nothing. */
    method ClosePool(waitFails: bool) returns (r: Result<()>)
      modifies this
      ensures old(pool).None? ==> pool == None && closed == old(closed) && r.Ok?
      ensures old(pool).Some? ==> closed == old(closed) + [old(pool).value]
      ensures old(pool).Some? ==> (r.Ok? <==> !waitFails) && pool == (if waitFails then old(pool) else None)
      ensures created == old(created)
    {
      if pool.Some? {
        closed := closed + [pool.value];
        if waitFails {
          return Err(DatabaseError);
        }
        pool := None;
      }
      r := Ok(());
    }
  }

  /** A successful `close_pool` leaves no pool, and a second call then
      closes nothing: closing is idempotent. */
  method ClosePoolTwice(reg: PoolRegistry)
    modifies reg
    ensures reg.pool == None
    ensures |reg.closed| <= |old(reg.closed)| + 1
  {
    var _ := reg.ClosePool(false);
    var _ := reg.ClosePool(false);
  }

  /** The four cursor classes `with_rdb` can open. */
  datatype CursorKind = Ordinary | DictCursor | SSCursor | SSDictCursor

  /** Cursor selection from the two flags `dict_cursor` and `ss_cursor`:
      the cursor returns dictionaries exactly when `dict_cursor` is set and
      is server-side exactly when `ss_cursor` is set. */
  function CursorFor(dictCursor: bool, ssCursor: bool): (k: CursorKind)
    ensures (k.DictCursor? || k.SSDictCursor?) <==> dictCursor
    ensures (k.SSCursor? || k.SSDictCursor?) <==> ssCursor
  {
    if dictCursor then (if ssCursor then SSDictCursor else DictCursor)
    else (if ssCursor then SSCursor else Ordinary)
  }

  /** Distinct flag pairs select distinct cursor classes. */
  lemma CursorForInjective(d1: bool, s1: bool, d2: bool, s2: bool)
    requires CursorFor(d1, s1) == CursorFor(d2, s2)
    ensures d1 == d2 && s1 == s2
  {
  }

  /** A keyword argument passed to the wrapped function. */
  datatype Arg = Connection | Cursor(kind: CursorKind) | Value(v: SqlValue)

  /** What the wrapper does to the pool and the cursor, in order. */
  datatype RdbStep = Acquire | OpenCursor(kind: CursorKind) | CallWrapped | CloseCursor | Release

  datatype RdbRun<V> = RdbRun(kwargs: map<string, Arg>, steps: seq<RdbStep>, outcome: Result<V>)

  /** The wrapper built by `with_rdb(connection_name=…, cursor_name=…,
      dict_cursor=…, ss_cursor=…)`, called with keyword arguments `kwargs`;
      `body` is the wrapped function. */
  function WithRdb<V>(connectionName: string, cursorName: string, dictCursor: bool, ssCursor: bool,
                      kwargs: map<string, Arg>, body: map<string, Arg> -> Result<V>): (r: RdbRun<V>)
    ensures r.kwargs.Keys == kwargs.Keys + {connectionName, cursorName}
    ensures r.kwargs[cursorName] == Cursor(CursorFor(dictCursor, ssCursor))
    ensures connectionName != cursorName ==> r.kwargs[connectionName] == Connection
    ensures forall k :: k in kwargs && k != connectionName && k != cursorName ==> r.kwargs[k] == kwargs[k]
    ensures r.outcome == body(r.kwargs)
    ensures |r.steps| >= 3 && r.steps[..3] == [Acquire, OpenCursor(CursorFor(dictCursor, ssCursor)), CallWrapped]
    ensures (CloseCursor in r.steps) <==> r.outcome.Ok?
    ensures (Release in r.steps) <==> r.outcome.Ok?
  {
    var kind := CursorFor(dictCursor, ssCursor);
    var passed := kwargs[connectionName := Connection][cursorName := Cursor(kind)];
    var result := body(passed);
    var steps := [Acquire, OpenCursor(kind), CallWrapped]
      + (if result.Ok? then [CloseCursor, Release] else []);
    RdbRun(passed, steps, result)
  }

  /** `transact(statements, data)` as written. `data=None` becomes one empty
      tuple per statement. When there are fewer data items than statements,
      `data = data.extend(...)` stores the `None` that `list.extend`
      returns, so `data[:ns]` raises `TypeError` inside the `try`: the
      transaction is rolled back and the error re-raised, and no statement
      runs. */
  function TransactAsWritten(statements: seq<string>, data: Option<seq<StmtData>>,
                             db: DbCall -> Reply, commitFails: bool): Completed
  {
    var ns := |statements|;
    var d := if data.None? then EmptyTuples(ns) else data.value;
    if ns > |d| then Completed([Rollback], Err(TypeError("'NoneType' object is not subscriptable")))
    else Finish(RunPairs(Zip(statements, d[..ns]), db), commitFails)
  }

  /** `transact` as its documentation describes it: missing data items are
      padded with empty tuples. */
  function TransactPadded(statements: seq<string>, data: Option<seq<StmtData>>,
                          db: DbCall -> Reply, commitFails: bool): Completed
  {
    var ns := |statements|;
    var d := if data.None? then EmptyTuples(ns) else data.value;
    var padded := if ns > |d| then d + EmptyTuples(ns - |d|) else d;
    Finish(RunPairs(Zip(statements, padded[..ns]), db), commitFails)
  }

  /** The `transact` coroutine: normalise `data`, run the pairs, then commit
      or roll back. */
  method Transact(statements: seq<string>, data: Option<seq<StmtData>>,
                  db: DbCall -> Reply, commitFails: bool) returns (r: Completed)
    ensures r == TransactAsWritten(statements, data, db, commitFails)
  {
    var d := data;
    if d.None? {
      d := Some(EmptyTuples(|statements|));
    }
    var ns := |statements|;
    var nd := |d.value|;
    if ns > nd {
      d := None;
    }
    if d.None? {
      return Completed([Rollback], Err(TypeError("'NoneType' object is not subscriptable")));
    }
    var calls, total, failed := ExecutePairs(Zip(statements, d.value[..ns]), db);
    r := Finish(RunResult(calls, total, failed), commitFails);
  }

  /** On success `transact` has executed every statement, in order, each with
      its own data as `Dispatch` says, committed once, and returns the sum of
      the per-statement row counts. Any failure ends in a rollback. */
  lemma {:induction false} TransactSpec(statements: seq<string>, data: Option<seq<StmtData>>,
                                        db: DbCall -> Reply, commitFails: bool)
    requires data.Some? ==> |data.value| >= |statements|
    ensures var r := TransactAsWritten(statements, data, db, commitFails);
      var d := if data.None? then EmptyTuples(|statements|) else data.value;
      && (r.outcome.Ok? ==>
            |r.calls| == |statements| + 1 && r.calls[|statements|] == Commit
            && (forall i :: 0 <= i < |statements| ==> r.calls[i] == Dispatch(statements[i], d[i]))
            && r.outcome.value == SumReplies(r.calls[..|statements|], db))
      && (r.outcome.Err? ==> r.calls[|r.calls| - 1] == Rollback)
      && (r.outcome.Ok? <==>
            !commitFails && forall i :: 0 <= i < |statements| ==> db(Dispatch(statements[i], d[i])).Affected?)
  {
    var d := if data.None? then EmptyTuples(|statements|) else data.value;
    var ps := Zip(statements, d[..|statements|]);
    RunPairsSpec(ps, db);
    FinishSpec(RunPairs(ps, db), commitFails);
    RunPairsFailsIff(ps, db);
    assert forall i :: 0 <= i < |statements| ==> ps[i] == (statements[i], d[i]);
  }

  /** With `data=None` every statement is executed with an empty tuple. */
  lemma NoneDataUsesEmptyTuples(statements: seq<string>, db: DbCall -> Reply, commitFails: bool)
    ensures var r := TransactAsWritten(statements, None, db, commitFails);
      forall i :: 0 <= i < |statements| && i < |r.calls| - 1 ==> r.calls[i] == Execute(statements[i], [])
  {
    var ps := Zip(statements, EmptyTuples(|statements|)[..|statements|]);
    RunPairsSpec(ps, db);
    FinishSpec(RunPairs(ps, db), commitFails);
  }

  /** The `list.extend` defect: with fewer data items than statements nothing
      is executed and the call fails, although the documented behaviour is
      to pad with empty tuples. */
  lemma ShortDataFails(statements: seq<string>, data: seq<StmtData>, db: DbCall -> Reply, commitFails: bool)
    requires |data| < |statements|
    ensures TransactAsWritten(statements, Some(data), db, commitFails).calls == [Rollback]
    ensures TransactAsWritten(statements, Some(data), db, commitFails).outcome.Err?
  {
  }

  /** `TransactPadded` runs every statement when it succeeds and gives the
      ones without data an empty tuple. */
  lemma PaddedRunsShortData(statements: seq<string>, data: seq<StmtData>, db: DbCall -> Reply, commitFails: bool)
    requires |data| < |statements|
    ensures var r := TransactPadded(statements, Some(data), db, commitFails);
      r.outcome.Ok? ==>
        |r.calls| == |statements| + 1
        && forall i :: |data| <= i < |statements| ==> r.calls[i] == Execute(statements[i], [])
  {
    var ps := PaddedPairs(statements, data);
    var run := RunPairs(ps, db);
    RunPairsSpec(ps, db);
    FinishSpec(run, commitFails);
    var r := TransactPadded(statements, Some(data), db, commitFails);
    assert r == Finish(run, commitFails);
    if r.outcome.Ok? {
      forall i | |data| <= i < |statements|
        ensures r.calls[i] == Execute(statements[i], [])
      {
        assert r.calls[i] == run.calls[i] == Dispatch(ps[i].0, ps[i].1);
      }
    }
  }

  /** The pairs `TransactPadded` runs when `data` is short: every statement
      past the data gets an empty tuple. */
  lemma PaddedPairs(statements: seq<string>, data: seq<StmtData>) returns (ps: seq<(string, StmtData)>)
    requires |data| < |statements|
    ensures var padded := data + EmptyTuples(|statements| - |data|);
      ps == Zip(statements, padded[..|statements|])
    ensures |ps| == |statements|
    ensures forall i :: |data| <= i < |statements| ==> ps[i] == (statements[i], Params([]))
  {
    var tail := EmptyTuples(|statements| - |data|);
    var padded := data + tail;
    ps := Zip(statements, padded[..|statements|]);
    forall i | |data| <= i < |statements|
      ensures ps[i] == (statements[i], Params([]))
    {
      assert padded[i] == tail[i - |data|];
    }
  }

  /** Where the defect does not bite (enough data, or none), the padded
      version behaves exactly as written. */
  lemma PaddedAgreesWhenDataSuffices(statements: seq<string>, data: Option<seq<StmtData>>,
                                     db: DbCall -> Reply, commitFails: bool)
    requires data.Some? ==> |data.value| >= |statements|
    ensures TransactPadded(statements, data, db, commitFails) == TransactAsWritten(statements, data, db, commitFails)
  {
  }
}
