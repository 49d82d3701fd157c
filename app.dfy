/** The application entry points of src/hurag_webui/main.py that are not UI:
    `_startup_app`, `_shutdown_app`, `lifespan`, and the bookkeeping that
    `send_message` and the like/dislike handlers do on the per-browser
    storage. The process environment is given as the three values
    `os.getenv` returned; logging is left out. */
module App {
  import opened Wrappers
  import opened Text
  import Clients
  import Dbs

  /** Python truthiness of an optional string: not `None` and not `""`. */
  predicate Truthy(v: Option<string>) {
    v.Some? && v.value != ""
  }

  /** The envLabel `_startup_app` and `_shutdown_app` put in their log lines. */
  function EnvLabel(envLabel: Option<string>): (r: string)
    ensures !Truthy(envLabel) <==> r == ""
  {
    if Truthy(envLabel) then " [" + Upper(envLabel.value) + "]" else ""
  }

  /** A present envLabel is shown upper-cased between brackets after a space. */
  lemma EnvLabelShape(envLabel: string)
    requires envLabel != ""
    ensures var r := EnvLabel(Some(envLabel));
      |r| == |envLabel| + 3 && r[..2] == " [" && r[|r| - 1] == ']'
      && forall i :: 0 <= i < |envLabel| ==> r[i + 2] == UpperChar(envLabel[i])
  {
  }

  // ---------------------------------------------------------------------
  // _startup_app

  /** The three settings `_startup_app` reads, after checking them in order:
      the first missing or empty one raises `ValueError` naming the
      variable `<generation>_BASE_URL`, `_API_KEY` or `_MODEL`. */
  datatype Settings = Settings(baseUrl: string, apiKey: string, model: string)

  function CheckSettings(generation: string, baseUrl: Option<string>, apiKey: Option<string>,
                         model: Option<string>): (r: Result<Settings>)
    ensures r.Ok? <==> Truthy(baseUrl) && Truthy(apiKey) && Truthy(model)
    ensures r.Ok? ==> r.value == Settings(baseUrl.value, apiKey.value, model.value)
    ensures !Truthy(baseUrl) ==> r == Err(ValueError("Missing " + generation + "_BASE_URL"))
    ensures Truthy(baseUrl) && !Truthy(apiKey) ==> r == Err(ValueError("Missing " + generation + "_API_KEY"))
    ensures Truthy(baseUrl) && Truthy(apiKey) && !Truthy(model) ==>
      r == Err(ValueError("Missing " + generation + "_MODEL"))
  {
    if !Truthy(baseUrl) then Err(ValueError("Missing " + generation + "_BASE_URL"))
    else if !Truthy(apiKey) then Err(ValueError("Missing " + generation + "_API_KEY"))
    else if !Truthy(model) then Err(ValueError("Missing " + generation + "_MODEL"))
    else Ok(Settings(baseUrl.value, apiKey.value, model.value))
  }

  /** What a startup did to the chat-client holder and what it raised. */
  datatype StartupRun = StartupRun(state: Clients.ClientState, result: Result<()>)

  /** The error of `await None`. */
  const AwaitNone := TypeError("object NoneType can't be used in 'await' expression")

  /** `_startup_app` as written: after the checks, `chat_client.startup(...)`
      runs, installs the client, returns `None`, and awaiting that `None`
      raises `TypeError`. `created` is what `create_client` returns. */
  function StartupAppAsWritten(s: Clients.ClientState, generation: string, baseUrl: Option<string>,
                               apiKey: Option<string>, model: Option<string>,
                               created: Option<Clients.HandleId>): StartupRun
  {
    match CheckSettings(generation, baseUrl, apiKey, model)
    case Err(e) => StartupRun(s, Err(e))
    case Ok(st) =>
      var s' := Clients.StartupStep(s, st.model, created);
      StartupRun(s', if created.None? then Err(RuntimeError("create_client failed")) else Err(AwaitNone))
  }

  /** `_startup_app` as intended: the synchronous `startup` is called without
      `await`. */
  function StartupApp(s: Clients.ClientState, generation: string, baseUrl: Option<string>,
                      apiKey: Option<string>, model: Option<string>,
                      created: Option<Clients.HandleId>): StartupRun
  {
    match CheckSettings(generation, baseUrl, apiKey, model)
    case Err(e) => StartupRun(s, Err(e))
    case Ok(st) =>
      var s' := Clients.StartupStep(s, st.model, created);
      StartupRun(s', if created.None? then Err(RuntimeError("create_client failed")) else Ok(()))
  }

  /** A failed check leaves the holder untouched: `startup` is never
      reached, in either version. */
  lemma CheckFailureLeavesClient(s: Clients.ClientState, generation: string, baseUrl: Option<string>,
                                 apiKey: Option<string>, model: Option<string>,
                                 created: Option<Clients.HandleId>)
    requires !(Truthy(baseUrl) && Truthy(apiKey) && Truthy(model))
    ensures StartupAppAsWritten(s, generation, baseUrl, apiKey, model, created).state == s
    ensures StartupApp(s, generation, baseUrl, apiKey, model, created).state == s
    ensures StartupAppAsWritten(s, generation, baseUrl, apiKey, model, created).result.error.ValueError?
  {
  }

  /** The `await` defect: with valid settings and a created client, the
      client is installed and started, yet `_startup_app` raises. The
      corrected version reaches the same state and succeeds. */
  lemma AwaitNoneDefect(s: Clients.ClientState, generation: string, baseUrl: string, apiKey: string,
                        model: string, h: Clients.HandleId)
    requires baseUrl != "" && apiKey != "" && model != ""
    ensures var w := StartupAppAsWritten(s, generation, Some(baseUrl), Some(apiKey), Some(model), Some(h));
      w.result == Err(AwaitNone)
      && w.state == Clients.ClientState(Some(model), Some(h)) && Clients.Started(w.state)
    ensures var c := StartupApp(s, generation, Some(baseUrl), Some(apiKey), Some(model), Some(h));
      c.result == Ok(()) && c.state == Clients.ClientState(Some(model), Some(h))
  {
  }

  /** The corrected startup succeeds exactly when every setting is present
      and a client was created, and then the holder is started with the
      configured model. */
  lemma StartupAppSpec(s: Clients.ClientState, generation: string, baseUrl: Option<string>,
                       apiKey: Option<string>, model: Option<string>, created: Option<Clients.HandleId>)
    ensures var r := StartupApp(s, generation, baseUrl, apiKey, model, created);
      (r.result.Ok? <==> Truthy(baseUrl) && Truthy(apiKey) && Truthy(model) && created.Some?)
      && (r.result.Ok? ==> Clients.Started(r.state) && r.state.model == model)
  {
  }

  /** `_startup_app` on the process's holder, as written. */
  method StartupAppOn(holder: Clients.LifespanClient, generation: string, baseUrl: Option<string>,
                      apiKey: Option<string>, model: Option<string>, created: Option<Clients.ChatHandle>)
    returns (r: Result<()>)
    requires created.Some? && baseUrl.Some? && apiKey.Some? ==>
      created.value.baseUrl == baseUrl.value && created.value.apiKey == apiKey.value
    modifies holder
    ensures var w := StartupAppAsWritten(old(holder.State()), generation, baseUrl, apiKey, model,
                                         if created.Some? then Some(created.value.id) else None);
      holder.State() == w.state && r == w.result
  {
    var settings := CheckSettings(generation, baseUrl, apiKey, model);
    if settings.Err? {
      return Err(settings.error);
    }
    var st := settings.value;
    var started := holder.Startup(st.baseUrl, st.apiKey, st.model, created);
    if started.Err? {
      return Err(RuntimeError("create_client failed"));
    }
    r := Err(AwaitNone);
  }

  // ---------------------------------------------------------------------
  // _shutdown_app and lifespan

  datatype ShutdownPart = ClosePoolPart | ClientShutdownPart

  datatype ShutdownRun = ShutdownRun(parts: seq<ShutdownPart>, pool: Option<Dbs.PoolId>,
                                     state: Clients.ClientState, result: Result<()>)

  /** `_shutdown_app`: close the database pool, then shut the chat client
      down; an exception from the first skips the second. */
  function ShutdownApp(pool: Option<Dbs.PoolId>, waitFails: bool, s: Clients.ClientState,
                       closeFails: bool): ShutdownRun
  {
    if pool.Some? && waitFails then ShutdownRun([ClosePoolPart], pool, s, Err(DatabaseError))
    else
      var o := Clients.ShutdownStep(s, closeFails);
      ShutdownRun([ClosePoolPart, ClientShutdownPart], None, o.state,
                  if o.raised then Err(CloseFailed) else Ok(()))
  }

  /** The pool is always closed first, and the chat client is shut down
      only when closing the pool did not raise; a full shutdown leaves no
      pool and no client. */
  lemma ShutdownOrder(pool: Option<Dbs.PoolId>, waitFails: bool, s: Clients.ClientState, closeFails: bool)
    ensures var r := ShutdownApp(pool, waitFails, s, closeFails);
      r.parts[0] == ClosePoolPart
      && (ClientShutdownPart in r.parts <==> !(pool.Some? && waitFails))
      && (ClientShutdownPart !in r.parts ==> r.state == s && r.result.Err?)
      && (r.result.Ok? ==> r.pool == None && !Clients.Started(r.state))
  {
    var r := ShutdownApp(pool, waitFails, s, closeFails);
    if ClientShutdownPart in r.parts {
      Clients.ShutdownOutcomes(s, closeFails);
    }
  }

  /** `_shutdown_app` on the process's pool registry and holder. */
  method ShutdownAppOn(reg: Dbs.PoolRegistry, holder: Clients.LifespanClient, waitFails: bool, closeFails: bool)
    returns (r: Result<()>)
    modifies reg, holder, holder.client
    ensures var w := ShutdownApp(old(reg.pool), waitFails, old(holder.State()), closeFails);
      reg.pool == w.pool && holder.State() == w.state && r == w.result
  {
    var closed := reg.ClosePool(waitFails);
    if closed.Err? {
      return Err(DatabaseError);
    }
    var down := holder.Shutdown(closeFails);
    r := if down.Err? then Err(CloseFailed) else Ok(());
  }

  datatype Phase = StartupPhase | ServePhase | ShutdownPhase

  /** `lifespan`: startup, then serve (the `yield`), then shutdown; an
      exception anywhere is re-raised and skips what follows. The three
      arguments are the outcomes of the three phases. */
  function Lifespan(startup: Result<()>, serve: Result<()>, shutdown: Result<()>): (r: (seq<Phase>, Result<()>))
    ensures ShutdownPhase in r.0 <==> startup.Ok? && serve.Ok?
    ensures ServePhase in r.0 <==> startup.Ok?
    ensures r.1.Ok? <==> startup.Ok? && serve.Ok? && shutdown.Ok?
  {
    if startup.Err? then ([StartupPhase], startup)
    else if serve.Err? then ([StartupPhase, ServePhase], serve)
    else ([StartupPhase, ServePhase, ShutdownPhase], shutdown)
  }

  /** With the startup as written the application never serves: either a
      check fails or the awaited `None` raises, so `lifespan` re-raises
      before its `yield`. */
  lemma LifespanAsWrittenNeverServes(s: Clients.ClientState, generation: string, baseUrl: Option<string>,
                                     apiKey: Option<string>, model: Option<string>,
                                     created: Option<Clients.HandleId>, serve: Result<()>, shutdown: Result<()>)
    ensures var w := StartupAppAsWritten(s, generation, baseUrl, apiKey, model, created);
      ServePhase !in Lifespan(w.result, serve, shutdown).0
  {
  }

  // ---------------------------------------------------------------------
  // Per-browser storage touched by send_message and the like handlers

  /** A message as kept in `ui_app.storage.client["messages"]`. Messages of
      signed-in users are `Message.model_dump()` and carry `likes` and
      `dislikes`; guest messages are plain dicts without those keys. */
  datatype StoredMessage = StoredMessage(id: string, sessionId: string, seqNo: int, role: string,
                                         content: string, likes: Option<int>, dislikes: Option<int>)

  /** One key of the insertion-ordered `messages` dict. */
  datatype MsgEntry = MsgEntry(key: string, msg: StoredMessage)

  predicate HasKey(es: seq<MsgEntry>, k: string) {
    es != [] && (es[0].key == k || HasKey(es[1..], k))
  }

  lemma {:induction false} HasKeyAppend(es: seq<MsgEntry>, e: MsgEntry, k: string)
    ensures HasKey(es + [e], k) <==> HasKey(es, k) || e.key == k
  {
    if es != [] {
      assert (es + [e])[1..] == es[1..] + [e];
      HasKeyAppend(es[1..], e, k);
    }
  }

  function Lookup(es: seq<MsgEntry>, k: string): (r: Option<StoredMessage>)
    ensures r.Some? <==> HasKey(es, k)
  {
    if es == [] then None
    else if es[0].key == k then Some(es[0].msg)
    else Lookup(es[1..], k)
  }

  /** `d[k] = v` on a Python dict: an existing key keeps its position and
      gets the new value; a new key is appended. */
  function Put(es: seq<MsgEntry>, k: string, v: StoredMessage): (r: seq<MsgEntry>)
    ensures Lookup(r, k) == Some(v)
    ensures HasKey(es, k) ==> |r| == |es| && forall i :: 0 <= i < |es| ==> r[i].key == es[i].key
    ensures !HasKey(es, k) ==> r == es + [MsgEntry(k, v)]
    ensures forall j :: j != k ==> Lookup(r, j) == Lookup(es, j)
  {
    if es == [] then [MsgEntry(k, v)]
    else if es[0].key == k then [MsgEntry(k, v)] + es[1..]
    else [es[0]] + Put(es[1..], k, v)
  }

  /** Writing back the value a key already has changes nothing. */
  lemma {:induction false} PutSame(es: seq<MsgEntry>, k: string)
    requires Lookup(es, k).Some?
    ensures Put(es, k, Lookup(es, k).value) == es
  {
    if es != [] && es[0].key != k {
      PutSame(es[1..], k);
    }
  }

  /** Two writes to one key: the second wins. */
  lemma {:induction false} PutPut(es: seq<MsgEntry>, k: string, v1: StoredMessage, v2: StoredMessage)
    ensures Put(Put(es, k, v1), k, v2) == Put(es, k, v2)
  {
    if es != [] && es[0].key != k {
      PutPut(es[1..], k, v1, v2);
    }
  }

  /** `ui_app.storage.client` as `send_message` uses it. */
  datatype Storage = Storage(currentSessionId: Option<string>, citations: map<string, seq<string>>,
                             messages: seq<MsgEntry>)

  /** The start of a turn: with no current session, the citations and
      messages dicts are replaced by empty ones. */
  function BeginTurn(s: Storage): (r: Storage)
    ensures r.currentSessionId == s.currentSessionId
    ensures s.currentSessionId.None? ==> r.citations == map[] && r.messages == []
    ensures s.currentSessionId.Some? ==> r == s
  {
    if s.currentSessionId.None? then s.(citations := map[], messages := []) else s
  }

  const GuestSession := "guest_session"

  /** A guest turn: the session id becomes `"guest_session"`, and the query
      and the response are stored with `seq_no` `len(messages)` and
      `len(messages) + 1`, both counted before either is stored. */
  function GuestTurn(s: Storage, qid: string, rid: string, query: string, response: string): Storage {
    var n := |s.messages|;
    var q := StoredMessage(qid, GuestSession, n, "user", query, None, None);
    var r := StoredMessage(rid, GuestSession, n + 1, "bot", response, None, None);
    s.(currentSessionId := Some(GuestSession), messages := Put(Put(s.messages, qid, q), rid, r))
  }

  /** Messages numbered 0, 1, 2, … in dict order. */
  predicate Contiguous(es: seq<MsgEntry>) {
    forall i :: 0 <= i < |es| ==> es[i].msg.seqNo == i
  }

  /** With fresh ids (as `generate_id` provides), a guest turn appends the
      query and the response and keeps the numbering contiguous. */
  lemma GuestTurnKeepsContiguous(s: Storage, qid: string, rid: string, query: string, response: string)
    requires Contiguous(s.messages)
    requires qid != rid && !HasKey(s.messages, qid) && !HasKey(s.messages, rid)
    ensures var t := GuestTurn(s, qid, rid, query, response);
      Contiguous(t.messages) && |t.messages| == |s.messages| + 2
      && t.messages[|s.messages|].key == qid && t.messages[|s.messages| + 1].key == rid
  {
    var n := |s.messages|;
    var q := StoredMessage(qid, GuestSession, n, "user", query, None, None);
    var once := Put(s.messages, qid, q);
    assert once == s.messages + [MsgEntry(qid, q)];
    HasKeyAppend(s.messages, MsgEntry(qid, q), rid);
  }

  /** The first guest turn of a fresh conversation stores the query at 0
      and the response at 1, and later turns do not reset the messages. */
  lemma FirstGuestTurn(s: Storage, qid: string, rid: string, query: string, response: string)
    requires s.currentSessionId.None? && qid != rid
    ensures var t := GuestTurn(BeginTurn(s), qid, rid, query, response);
      |t.messages| == 2 && t.messages[0].msg.seqNo == 0 && t.messages[1].msg.seqNo == 1
      && t.currentSessionId == Some(GuestSession) && BeginTurn(t) == t
  {
  }

  /** A signed-in user's turn after `upsert_session`: a new conversation
      takes the id of the session it created (`newSessionId`); both stored
      messages are put under their ids; the citation ids are kept under the
      response id only when there are any. */
  function UserTurn(s: Storage, newSessionId: Option<string>, q: StoredMessage, r: StoredMessage,
                    citationIds: seq<string>): Storage
  {
    var sid := if s.currentSessionId.None? then newSessionId else s.currentSessionId;
    var ms := Put(Put(s.messages, q.id, q), r.id, r);
    var cs := if citationIds != [] then s.citations[r.id := citationIds] else s.citations;
    Storage(sid, cs, ms)
  }

  /** What a signed-in turn leaves behind: both messages are found under
      their ids, the citations of the response are recorded exactly when
      there are some, and an existing session id is kept. */
  lemma UserTurnSpec(s: Storage, newSessionId: Option<string>, q: StoredMessage, r: StoredMessage,
                     citationIds: seq<string>)
    requires q.id != r.id
    ensures var t := UserTurn(s, newSessionId, q, r, citationIds);
      Lookup(t.messages, q.id) == Some(q) && Lookup(t.messages, r.id) == Some(r)
      && (citationIds != [] ==> r.id in t.citations && t.citations[r.id] == citationIds)
      && (citationIds == [] ==> t.citations == s.citations)
      && (s.currentSessionId.Some? ==> t.currentSessionId == s.currentSessionId)
  {
  }

  /** `1 - x`: the like and dislike flags flip between 0 and 1. */
  function Flip(x: int): (r: int)
    ensures x == 0 ==> r == 1
    ensures x == 1 ==> r == 0
  {
    1 - x
  }

  lemma FlipTwice(x: int)
    ensures Flip(Flip(x)) == x
  {
  }

  datatype Flag = Likes | Dislikes

  function FlagOf(m: StoredMessage, f: Flag): Option<int> {
    if f.Likes? then m.likes else m.dislikes
  }

  /** The like/dislike handler before its database call: look the message up
      (`None` when absent, which then fails to subscript), flip the flag
      (`KeyError` when a guest message has none), and store it back. The
      new flag value is what is sent to `like_message`/`dislike_message`. */
  function Toggle(es: seq<MsgEntry>, id: string, f: Flag): (r: Result<(seq<MsgEntry>, int)>)
    ensures !HasKey(es, id) ==> r == Err(TypeError("'NoneType' object is not subscriptable"))
    ensures HasKey(es, id) && FlagOf(Lookup(es, id).value, f).None? ==>
      r == Err(KeyError(if f.Likes? then "likes" else "dislikes"))
    ensures r.Ok? ==>
      var m := Lookup(es, id).value;
      FlagOf(m, f).Some? && r.value.1 == Flip(FlagOf(m, f).value)
      && Lookup(r.value.0, id).Some? && FlagOf(Lookup(r.value.0, id).value, f) == Some(r.value.1)
      && |r.value.0| == |es| && (forall i :: 0 <= i < |es| ==> r.value.0[i].key == es[i].key)
    ensures r.Ok? ==> var m := Lookup(es, id).value; var m' := Lookup(r.value.0, id).value;
      && m'.id == m.id && m'.sessionId == m.sessionId && m'.seqNo == m.seqNo && m'.role == m.role
      && m'.content == m.content && (f.Likes? ==> m'.dislikes == m.dislikes) && (f.Dislikes? ==> m'.likes == m.likes)
    ensures r.Ok? ==> forall j :: j != id ==> Lookup(r.value.0, j) == Lookup(es, j)
  {
    match Lookup(es, id)
    case None => Err(TypeError("'NoneType' object is not subscriptable"))
    case Some(m) =>
      match FlagOf(m, f)
      case None => Err(KeyError(if f.Likes? then "likes" else "dislikes"))
      case Some(x) =>
        var m' := if f.Likes? then m.(likes := Some(Flip(x))) else m.(dislikes := Some(Flip(x)));
        Ok((Put(es, id, m'), Flip(x)))
  }

  /** Clicking twice restores the stored messages. */
  lemma ToggleTwice(es: seq<MsgEntry>, id: string, f: Flag)
    requires Toggle(es, id, f).Ok?
    ensures var once := Toggle(es, id, f).value.0;
      Toggle(once, id, f).Ok? && Toggle(once, id, f).value.0 == es
  {
    var m := Lookup(es, id).value;
    var x := FlagOf(m, f).value;
    var m' := if f.Likes? then m.(likes := Some(Flip(x))) else m.(dislikes := Some(Flip(x)));
    var once := Put(es, id, m');
    assert Lookup(once, id) == Some(m');
    var m'' := if f.Likes? then m'.(likes := Some(Flip(Flip(x)))) else m'.(dislikes := Some(Flip(Flip(x))));
    assert m'' == m;
    PutPut(es, id, m', m);
    PutSame(es, id);
  }

  /** The storage object itself, mutated in place by the handlers. */
  class ClientStorage {
    var currentSessionId: Option<string>
    var citations: map<string, seq<string>>
    var messages: seq<MsgEntry>

    constructor ()
      ensures State() == Storage(None, map[], [])
    {
      currentSessionId := None;
      citations := map[];
      messages := [];
    }

    function State(): Storage
      reads this
    {
      Storage(currentSessionId, citations, messages)
    }

    method BeginTurnOn()
      modifies this
      ensures State() == BeginTurn(old(State()))
    {
      if currentSessionId.None? {
        citations := map[];
        messages := [];
      }
    }

    method StoreGuestTurn(qid: string, rid: string, query: string, response: string)
      modifies this
      ensures State() == GuestTurn(old(State()), qid, rid, query, response)
    {
      currentSessionId := Some(GuestSession);
      var q := StoredMessage(qid, GuestSession, |messages|, "user", query, None, None);
      var r := StoredMessage(rid, GuestSession, |messages| + 1, "bot", response, None, None);
      messages := Put(messages, qid, q);
      messages := Put(messages, rid, r);
    }

    method StoreUserTurn(newSessionId: Option<string>, q: StoredMessage, r: StoredMessage, citationIds: seq<string>)
      modifies this
      ensures State() == UserTurn(old(State()), newSessionId, q, r, citationIds)
    {
      if currentSessionId.None? {
        currentSessionId := newSessionId;
      }
      messages := Put(messages, q.id, q);
      messages := Put(messages, r.id, r);
      if citationIds != [] {
        citations := citations[r.id := citationIds];
      }
    }

    /** The like (`f == Likes`) or dislike handler; returns the flag value
        passed on to the database. */
    method ToggleFlag(id: string, f: Flag) returns (r: Result<int>)
      modifies this
      ensures var t := Toggle(old(messages), id, f);
        (t.Ok? ==> r == Ok(t.value.1) && messages == t.value.0)
        && (t.Err? ==> r == Err(t.error) && messages == old(messages))
      ensures currentSessionId == old(currentSessionId) && citations == old(citations)
    {
      var t := Toggle(messages, id, f);
      if t.Err? {
        return Err(t.error);
      }
      messages := t.value.0;
      r := Ok(t.value.1);
    }
  }
}
