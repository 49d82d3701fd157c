/** The database-independent rules of
    src/hurag_webui/services/session_service.py: the rows `upsert_session`
    writes (sequence numbering, pair links, citation rows), the grouping of
    `load_citation_ids_by_session`, the short path of
    `generate_session_title`, and the statements and parameters of
    `load_sessions_by_user` and `search_result_batch`. Query results are
    given as parameters; timestamps are opaque numbers. */
module SessionService {
  import opened Wrappers
  import opened Sql
  import opened Text
  import opened Models
  import Dbs

  // ---------------------------------------------------------------------
  // load_sessions_by_user

  /** The query text as written, its indentation included. */
  const SessionsByUser := "\n    SELECT id, title, created_ts, user_id FROM sessions WHERE user_id = %s\n    ORDER BY created_ts DESC\n    "

  /** The query `load_sessions_by_user` sends, or `None` when it returns
      `[]` at once for a missing or empty user id. */
  function SessionsQuery(userId: Option<string>, limit: int): (r: Option<(string, Row)>)
    ensures r.None? <==> userId.None? || userId.value == ""
    ensures r.Some? ==> r.value.1 == [SStr(userId.value)] && StartsWith(r.value.0, SessionsByUser)
    ensures r.Some? && limit <= 0 ==> r.value.0 == SessionsByUser
    ensures r.Some? && limit > 0 ==> r.value.0 == SessionsByUser + "LIMIT " + IntToString(limit)
  {
    if userId.None? || userId.value == "" then None
    else Some((SessionsByUser + (if limit > 0 then "LIMIT " + IntToString(limit) else ""), [SStr(userId.value)]))
  }

  // ---------------------------------------------------------------------
  // upsert_session

  // The statements of `upsert_session`, their line breaks and indentation
  // collapsed to single spaces.
  const CreateNewSession := "INSERT INTO sessions (id, title, created_ts, user_id) VALUES (%s, %s, %s, %s)"
  const InsertQuery := "INSERT INTO session_messages (id, session_id, seq_no, role, content, created_ts, pair_id) VALUES (%s, %s, %s, 'user', %s, %s, %s)"
  const InsertResponse := "INSERT INTO session_messages (id, session_id, seq_no, role, content, created_ts, pair_id) VALUES (%s, %s, %s, 'assistant', %s, %s, %s)"
  const InsertCitations := "INSERT INTO query_segments (query_id, segment_id, seq_no) VALUES (%s, %s, %s)"
  const LockSession := "SELECT 1 FROM sessions WHERE id = %s FOR UPDATE"
  const GetLastSeqNo := "SELECT max(seq_no) FROM session_messages WHERE session_id = %s"
  const UpdateSession := "UPDATE sessions SET created_ts = %s WHERE id = %s"

  function OptStr(v: Option<string>): SqlValue {
    if v.Some? then SStr(v.value) else SNull
  }

  /** The new ids and the time `upsert_session` draws: `generate_id()` for
      the query and the response (and the session when it is new), and
      `datetime.now()`. */
  datatype Fresh = Fresh(queryId: string, responseId: string, sessionId: string, now: nat)

  /** The arguments of `upsert_session`. */
  datatype Turn = Turn(query: string, queryTs: nat, response: string, responseTs: nat,
                       citationIds: Option<seq<string>>)

  predicate HasCitations(t: Turn) {
    t.citationIds.Some? && t.citationIds.value != []
  }

  /** `[(response_id, cid, seq + 1) for seq, cid in enumerate(citation_ids)]`. */
  function CitationRows(responseId: string, cids: seq<string>): (r: seq<Row>)
    ensures |r| == |cids|
    ensures forall i :: 0 <= i < |cids| ==> r[i] == [SStr(responseId), SStr(cids[i]), SInt(i + 1)]
  {
    seq(|cids|, i requires 0 <= i < |cids| => [SStr(responseId), SStr(cids[i]), SInt(i + 1)])
  }

  /** The query message and the response message of a turn, numbered from
      `first`, each naming the other as its pair. */
  function QueryMessage(t: Turn, f: Fresh, sessionId: string, first: int): MessageData {
    MessageData(SStr(f.queryId), SStr(sessionId), SInt(first), SStr("user"), SStr(t.query),
                STime(t.queryTs), SInt(0), SInt(0), SStr(f.responseId))
  }

  function ResponseMessage(t: Turn, f: Fresh, sessionId: string, first: int): MessageData {
    MessageData(SStr(f.responseId), SStr(sessionId), SInt(first + 1), SStr("assistant"), SStr(t.response),
                STime(t.responseTs), SInt(0), SInt(0), SStr(f.queryId))
  }

  /** The message rows the INSERTs carry: `(id, session_id, seq_no, content,
      created_ts, pair_id)`; the role is in the statement. */
  function MessageRow(m: MessageData): Row {
    [m.id, m.sessionId, m.seqNo, m.content, m.createdTs, m.pairId]
  }

  /** The statements and data the new-session path hands to `transact`. */
  function NewSessionPlan(t: Turn, f: Fresh, title: Option<string>, userId: Option<string>)
    : (r: (seq<string>, seq<StmtData>))
    ensures |r.0| == |r.1|
  {
    var statements := [CreateNewSession, InsertQuery, InsertResponse];
    var data := [Params([SStr(f.sessionId), OptStr(title), STime(f.now), OptStr(userId)]),
                 Params(MessageRow(QueryMessage(t, f, f.sessionId, 0))),
                 Params(MessageRow(ResponseMessage(t, f, f.sessionId, 0)))];
    if HasCitations(t) then (statements + [InsertCitations], data + [Batch(CitationRows(f.responseId, t.citationIds.value))])
    else (statements, data)
  }

  /** `row[0] if row and row[0] is not None else -1`: `lastRow` is the row
      `fetchone()` returned (`None` for no row), holding `max(seq_no)`
      (`None` for SQL NULL). */
  function LastSeqNo(lastRow: Option<Option<int>>): int {
    if lastRow.Some? && lastRow.value.Some? then lastRow.value.value else -1
  }

  /** The cursor calls of the update path, as (statement, data) pairs, in
      order: lock the session, read the last number, insert both messages,
      touch the session, and insert the citations when there are any. */
  function UpdatePlan(t: Turn, f: Fresh, sessionId: string, last: int): (r: seq<(string, StmtData)>)
    ensures |r| == if HasCitations(t) then 6 else 5
  {
    var q := QueryMessage(t, f, sessionId, last + 1);
    var resp := ResponseMessage(t, f, sessionId, last + 1);
    [(LockSession, Params([SStr(sessionId)])),
     (GetLastSeqNo, Params([SStr(sessionId)])),
     (InsertQuery, Params(MessageRow(q))),
     (InsertResponse, Params(MessageRow(resp))),
     (UpdateSession, Params([STime(f.now), SStr(sessionId)]))]
    + (if HasCitations(t) then [(InsertCitations, Batch(CitationRows(f.responseId, t.citationIds.value)))] else [])
  }

  /** What `upsert_session` returns: the new session (or `None` on the
      update path), the query message and the response message. */
  datatype Upserted = Upserted(session: Option<SessionData>, q: MessageData, r: MessageData)

  datatype UpsertRun = UpsertRun(calls: seq<DbCall>, result: Result<Upserted>)

  /** `upsert_session`. A falsy `session_id` creates a session through
      `dbs.transact`; otherwise the update path runs its calls on one
      connection and commits, rolling back and re-raising on error. */
  function Upsert(t: Turn, sessionId: Option<string>, title: Option<string>, userId: Option<string>,
                  f: Fresh, lastRow: Option<Option<int>>, db: DbCall -> Reply, commitFails: bool): UpsertRun
  {
    if sessionId.None? || sessionId.value == "" then
      var plan := NewSessionPlan(t, f, title, userId);
      var c := Dbs.TransactAsWritten(plan.0, Some(plan.1), db, commitFails);
      if c.outcome.Err? then UpsertRun(c.calls, Err(c.outcome.error))
      else
        var s := SessionData(SStr(f.sessionId), OptStr(title), STime(f.now), OptStr(userId));
        UpsertRun(c.calls, Ok(Upserted(Some(s), QueryMessage(t, f, f.sessionId, 0),
                                       ResponseMessage(t, f, f.sessionId, 0))))
    else
      var sid := sessionId.value;
      var last := LastSeqNo(lastRow);
      var c := Finish(RunPairs(UpdatePlan(t, f, sid, last), db), commitFails);
      if c.outcome.Err? then UpsertRun(c.calls, Err(c.outcome.error))
      else UpsertRun(c.calls, Ok(Upserted(None, QueryMessage(t, f, sid, last + 1), ResponseMessage(t, f, sid, last + 1))))
  }

  /** A new session numbers its query 0 and its response 1; an existing one
      continues after the highest stored number (or from 0 when it has
      none); the two messages always name each other as their pair and
      belong to the same session; the update path returns no session. */
  lemma UpsertNumbering(t: Turn, sessionId: Option<string>, title: Option<string>, userId: Option<string>,
                        f: Fresh, lastRow: Option<Option<int>>, db: DbCall -> Reply, commitFails: bool)
    ensures var u := Upsert(t, sessionId, title, userId, f, lastRow, db, commitFails);
      u.result.Ok? ==>
        var Upserted(s, q, r) := u.result.value;
        && q.pairId == r.id && r.pairId == q.id && q.sessionId == r.sessionId
        && q.role == SStr("user") && r.role == SStr("assistant")
        && ((sessionId.None? || sessionId.value == "") ==>
              q.seqNo == SInt(0) && r.seqNo == SInt(1) && s.Some? && q.sessionId == s.value.id)
        && ((sessionId.Some? && sessionId.value != "") ==>
              s.None? && q.sessionId == SStr(sessionId.value)
              && q.seqNo == SInt(LastSeqNo(lastRow) + 1) && r.seqNo == SInt(LastSeqNo(lastRow) + 2))
  {
  }

  /** An empty session (no row, or a NULL maximum) starts numbering at 0. */
  lemma EmptySessionStartsAtZero(lastRow: Option<Option<int>>)
    requires lastRow.None? || lastRow.value.None?
    ensures LastSeqNo(lastRow) + 1 == 0
  {
  }

  /** The writes of a successful new-session upsert, in order: the session
      row, the query row (number 0), the response row (number 1), then, only
      when there are citations, one batch of `(response_id, cid, i + 1)`
      rows; then a single commit. */
  lemma NewSessionWrites(t: Turn, title: Option<string>, userId: Option<string>, f: Fresh,
                         db: DbCall -> Reply, commitFails: bool)
    ensures var u := Upsert(t, None, title, userId, f, None, db, commitFails);
      var n := if HasCitations(t) then 4 else 3;
      u.result.Ok? ==>
        |u.calls| == n + 1 && u.calls[n] == Commit
        && u.calls[0] == Execute(CreateNewSession, [SStr(f.sessionId), OptStr(title), STime(f.now), OptStr(userId)])
        && u.calls[1] == Execute(InsertQuery, MessageRow(QueryMessage(t, f, f.sessionId, 0)))
        && u.calls[2] == Execute(InsertResponse, MessageRow(ResponseMessage(t, f, f.sessionId, 0)))
        && (HasCitations(t) ==> u.calls[3] == ExecuteMany(InsertCitations, CitationRows(f.responseId, t.citationIds.value)))
  {
    var plan := NewSessionPlan(t, f, title, userId);
    Dbs.TransactSpec(plan.0, Some(plan.1), db, commitFails);
  }

  /** The writes of a successful update: the lock, the read of the last
      number, both message rows, the session touch, the citation batch only
      when there are citations, and one commit. */
  lemma UpdateWrites(t: Turn, sessionId: string, f: Fresh, lastRow: Option<Option<int>>,
                     db: DbCall -> Reply, commitFails: bool)
    requires sessionId != ""
    ensures var u := Upsert(t, Some(sessionId), None, None, f, lastRow, db, commitFails);
      var n := if HasCitations(t) then 6 else 5;
      var last := LastSeqNo(lastRow);
      u.result.Ok? ==>
        |u.calls| == n + 1 && u.calls[n] == Commit
        && u.calls[2] == Execute(InsertQuery, MessageRow(QueryMessage(t, f, sessionId, last + 1)))
        && u.calls[3] == Execute(InsertResponse, MessageRow(ResponseMessage(t, f, sessionId, last + 1)))
        && (HasCitations(t) ==> u.calls[5] == ExecuteMany(InsertCitations, CitationRows(f.responseId, t.citationIds.value)))
    ensures Upsert(t, Some(sessionId), None, None, f, lastRow, db, commitFails).result.Err? ==>
      var calls := Upsert(t, Some(sessionId), None, None, f, lastRow, db, commitFails).calls;
      calls[|calls| - 1] == Rollback
  {
    var ps := UpdatePlan(t, f, sessionId, LastSeqNo(lastRow));
    RunPairsSpec(ps, db);
    FinishSpec(RunPairs(ps, db), commitFails);
  }

  /** `upsert_session` builds its lists with `append`, as written, and runs
      them. */
  method UpsertSession(t: Turn, sessionId: Option<string>, title: Option<string>, userId: Option<string>,
                       f: Fresh, lastRow: Option<Option<int>>, db: DbCall -> Reply, commitFails: bool)
    returns (u: UpsertRun)
    ensures u == Upsert(t, sessionId, title, userId, f, lastRow, db, commitFails)
  {
    if sessionId.None? || sessionId.value == "" {
      var statements := [CreateNewSession, InsertQuery, InsertResponse];
      var data := [Params([SStr(f.sessionId), OptStr(title), STime(f.now), OptStr(userId)]),
                   Params(MessageRow(QueryMessage(t, f, f.sessionId, 0))),
                   Params(MessageRow(ResponseMessage(t, f, f.sessionId, 0)))];
      if HasCitations(t) {
        statements := statements + [InsertCitations];
        data := data + [Batch(CitationRows(f.responseId, t.citationIds.value))];
      }
      var c := Dbs.Transact(statements, Some(data), db, commitFails);
      if c.outcome.Err? {
        return UpsertRun(c.calls, Err(c.outcome.error));
      }
      var s := SessionData(SStr(f.sessionId), OptStr(title), STime(f.now), OptStr(userId));
      return UpsertRun(c.calls, Ok(Upserted(Some(s), QueryMessage(t, f, f.sessionId, 0),
                                            ResponseMessage(t, f, f.sessionId, 0))));
    }
    var sid := sessionId.value;
    var last := LastSeqNo(lastRow);
    var calls, total, failed := ExecutePairs(UpdatePlan(t, f, sid, last), db);
    var c := Finish(RunResult(calls, total, failed), commitFails);
    if c.outcome.Err? {
      return UpsertRun(c.calls, Err(c.outcome.error));
    }
    u := UpsertRun(c.calls, Ok(Upserted(None, QueryMessage(t, f, sid, last + 1), ResponseMessage(t, f, sid, last + 1))));
  }

  // ---------------------------------------------------------------------
  // load_citation_ids_by_session

  /** The segment ids of the rows whose query id is `k`, in row order. */
  function SegmentsOf(rows: seq<(string, string)>, k: string): (r: seq<string>)
    ensures |r| <= |rows|
  {
    if rows == [] then []
    else SegmentsOf(rows[..|rows| - 1], k) + (if rows[|rows| - 1].0 == k then [rows[|rows| - 1].1] else [])
  }

  function QueryIds(rows: seq<(string, string)>): set<string> {
    set i | 0 <= i < |rows| :: rows[i].0
  }

  /** `citation_ids.setdefault(qid, []).append(sid)` for each row in turn. */
  function Group(rows: seq<(string, string)>): map<string, seq<string>> {
    if rows == [] then map[]
    else
      var g := Group(rows[..|rows| - 1]);
      var (qid, sid) := rows[|rows| - 1];
      g[qid := (if qid in g then g[qid] else []) + [sid]]
  }

  /** The grouping has one key per query id that occurs in the rows, and
      under each key the segment ids of that query in row order. */
  lemma {:induction false} GroupSpec(rows: seq<(string, string)>)
    ensures Group(rows).Keys == QueryIds(rows)
    ensures forall k :: k in Group(rows) ==> Group(rows)[k] == SegmentsOf(rows, k) && Group(rows)[k] != []
  {
    if rows != [] {
      var front := rows[..|rows| - 1];
      GroupSpec(front);
      assert QueryIds(rows) == QueryIds(front) + {rows[|rows| - 1].0} by {
        forall x | x in QueryIds(rows) ensures x in QueryIds(front) + {rows[|rows| - 1].0} {
          var i :| 0 <= i < |rows| && rows[i].0 == x;
          if i < |rows| - 1 {
            assert front[i].0 == x;
          }
        }
        forall x | x in QueryIds(front) ensures x in QueryIds(rows) {
          var i :| 0 <= i < |front| && front[i].0 == x;
          assert rows[i].0 == x;
        }
      }
      forall k | k in Group(rows)
        ensures Group(rows)[k] == SegmentsOf(rows, k)
      {
        if k !in Group(front) {
          assert SegmentsOf(front, k) == [] by {
            SegmentsEmpty(front, k);
          }
        }
      }
    }
  }

  lemma {:induction false} SegmentsEmpty(rows: seq<(string, string)>, k: string)
    requires k !in QueryIds(rows)
    ensures SegmentsOf(rows, k) == []
  {
    if rows != [] {
      var front := rows[..|rows| - 1];
      assert QueryIds(front) <= QueryIds(rows) by {
        forall x | x in QueryIds(front) ensures x in QueryIds(rows) {
          var i :| 0 <= i < |front| && front[i].0 == x;
          assert rows[i].0 == x;
        }
      }
      assert rows[|rows| - 1].0 in QueryIds(rows);
      SegmentsEmpty(front, k);
    }
  }

  /** `load_citation_ids_by_session`: `{}` for an empty session id (no
      query is sent), otherwise the grouping of the returned rows. */
  method LoadCitationIdsBySession(sessionId: string, rows: seq<(string, string)>)
    returns (citationIds: map<string, seq<string>>)
    ensures sessionId == "" ==> citationIds == map[]
    ensures sessionId != "" ==> citationIds == Group(rows)
  {
    citationIds := map[];
    if sessionId == "" {
      return;
    }
    var i := 0;
    while i < |rows|
      invariant 0 <= i <= |rows|
      invariant citationIds == Group(rows[..i])
    {
      var (qid, sid) := rows[i];
      var existing := if qid in citationIds then citationIds[qid] else [];
      assert rows[..i + 1][..i] == rows[..i];
      citationIds := citationIds[qid := existing + [sid]];
      i := i + 1;
    }
    assert rows[..|rows|] == rows;
  }

  // ---------------------------------------------------------------------
  // generate_session_title

  /** `generate_session_title(query, max_length)`: the stripped query when it
      fits; otherwise the stripped reply of the language model (`llmReply`,
      which this model does not compute). */
  function GenerateSessionTitle(query: string, maxLength: int, llmReply: string): (r: string)
    ensures IsStripped(r)
    ensures |Strip(query)| <= maxLength ==> r == Strip(query)
  {
    if |Strip(query)| > maxLength then Strip(llmReply) else Strip(query)
  }

  /** A query that is already a short stripped title is its own title. */
  lemma ShortTitleUnchanged(query: string, maxLength: int, llmReply: string)
    requires IsStripped(query) && |query| <= maxLength
    ensures GenerateSessionTitle(query, maxLength, llmReply) == query
  {
    StripOfStripped(query);
  }

  // ---------------------------------------------------------------------
  // search_result_batch

  function Repeat(s: string, n: nat): (r: seq<string>)
    ensures |r| == n && forall i :: 0 <= i < n ==> r[i] == s
  {
    seq(n, _ => s)
  }

  /** The `IN (...)` list and the parameters `search_result_batch` sends, or
      `None` when there are no results (it returns `[]` without a query). */
  function SearchBatch<S>(results: seq<(string, S)>): (r: Option<(string, seq<string>)>)
    ensures r.None? <==> results == []
    ensures r.Some? ==> |r.value.1| == 2 * |results|
    ensures r.Some? ==>
      forall i :: 0 <= i < |results| ==> r.value.1[i] == results[i].0 && r.value.1[i + |results|] == results[i].0
  {
    if results == [] then None
    else
      var ids := seq(|results|, i requires 0 <= i < |results| => results[i].0);
      Some((Join(",", Repeat("%s", |results|)), ids + ids))
  }

  /** The placeholder list holds one `%s` per result, separated by commas:
      `n` placeholders take `3n - 1` characters. */
  lemma {:induction false} PlaceholderLength(n: nat)
    requires n >= 1
    ensures |Join(",", Repeat("%s", n))| == 3 * n - 1
  {
    if n > 1 {
      PlaceholderLength(n - 1);
      assert Repeat("%s", n)[1..] == Repeat("%s", n - 1);
    }
  }
}
