/** The non-UI logic of src/hurag_webui/viewers/chat_viewer.py: the context
    size table, `_context_length`, and `chat_with_backend`, which builds the
    prompt, picks the history window, streams the reply and appends an
    error marker when the stream fails. The configured `ctx_size` and the
    service URL are parameters; the reply's timestamp and everything shown
    on screen are not modelled. */
module ChatViewer {
  import opened Wrappers
  import opened Text
  import Kernel
  import Config
  import opened Prompts
  import opened Backend

  /** A row of `_CTX_SIZE_MAP`: how many knowledge segments go into the
      prompt, and the slice start of the history window. */
  datatype Limits = Limits(kn: Option<int>, hist: Option<int>)

  /** `_CTX_SIZE_MAP[ctx_size]`. */
  function CtxLimits(ctx: string): (r: Result<Limits>)
    ensures r.Ok? <==> ctx in Config.CtxSizes
    ensures r.Err? ==> r.error == KeyError(ctx)
  {
    if ctx == "tiny" then Ok(Limits(Some(4), Some(-2)))
    else if ctx == "medium" then Ok(Limits(Some(5), Some(-10)))
    else if ctx == "large" then Ok(Limits(None, None))
    else Err(KeyError(ctx))
  }

  /** `history[limit:] if limit else history`. */
  function Window<T>(history: seq<T>, limit: Option<int>): seq<T> {
    if LimitSet(limit) then Drop(history, limit.value) else history
  }

  /** The history rounds each size keeps. */
  function Rounds(ctx: string): nat {
    if ctx == "tiny" then 2 else 10
  }

  /** `tiny` keeps the last two history entries and `medium` the last ten
      (or all when there are fewer); `large` keeps them all. A `tiny`
      prompt carries at most four segments, a `medium` one at most five,
      a `large` one all of them. */
  lemma WindowSpec<T>(ctx: string, history: seq<T>, knowledgeList: seq<Scored>)
    requires ctx in Config.CtxSizes
    ensures var lim := CtxLimits(ctx).value;
      var w := Window(history, lim.hist);
      && (ctx == "large" ==> w == history && Selected(knowledgeList, lim.kn) == knowledgeList)
      && (ctx != "large" ==>
            |w| == (if |history| < Rounds(ctx) then |history| else Rounds(ctx)) && w == history[|history| - |w|..])
      && (ctx == "tiny" ==> Selected(knowledgeList, lim.kn) == knowledgeList[..if |knowledgeList| < 4 then |knowledgeList| else 4])
      && (ctx == "medium" ==> Selected(knowledgeList, lim.kn) == knowledgeList[..if |knowledgeList| < 5 then |knowledgeList| else 5])
  {
    if ctx != "large" {
      DropNegativeKeepsLast(history, Rounds(ctx));
    }
  }

  // ---------------------------------------------------------------------
  // _context_length

  /** `h["content"]` summed over the first `n` entries; an entry without
      content raises `KeyError`. */
  function ContentTotal(entries: seq<Entry>, n: nat): Result<nat>
    requires n <= |entries|
  {
    if n == 0 then Ok(0)
    else
      match ContentTotal(entries, n - 1)
      case Err(e) => Err(e)
      case Ok(t) => if "content" in entries[n - 1] then Ok(t + |entries[n - 1]["content"]|) else Err(KeyError("content"))
  }

  /** `len(None)` in the debug output. */
  const NoLen := TypeError("object of type 'NoneType' has no len()")

  /** `_context_length(...)`: the prompt's length plus the content lengths
      of the history window. The debug output measures `len(history)`, so
      a `None` history raises. */
  function ContextLengthOf(ctx: string, prompt: string, history: Option<seq<Entry>>): Result<nat> {
    var lim :- CtxLimits(ctx);
    var total :- if history.Some? && history.value != [] then
                   var w := Window(history.value, lim.hist);
                   ContentTotal(w, |w|)
                 else Ok(0);
    if history.None? then Err(NoLen) else Ok(|prompt| + total)
  }

  /** `_context_length`, with its loop. */
  method ContextLength(ctx: string, prompt: string, history: Option<seq<Entry>>) returns (r: Result<nat>)
    ensures r == ContextLengthOf(ctx, prompt, history)
  {
    var length := |prompt|;
    var lim := CtxLimits(ctx);
    if lim.Err? {
      return Err(lim.error);
    }
    if history.Some? && history.value != [] {
      var w := Window(history.value, lim.value.hist);
      var i := 0;
      while i < |w|
        invariant 0 <= i <= |w|
        invariant ContentTotal(w, i) == Ok(length - |prompt|) && length >= |prompt|
      {
        if "content" !in w[i] {
          ContentTotalErrSticks(w, i + 1, |w|);
          return Err(KeyError("content"));
        }
        length := length + |w[i]["content"]|;
        i := i + 1;
      }
    }
    if history.None? {
      return Err(NoLen);
    }
    r := Ok(length);
  }

  lemma {:induction false} ContentTotalErrSticks(entries: seq<Entry>, k: nat, n: nat)
    requires k <= n <= |entries| && ContentTotal(entries, k).Err?
    ensures ContentTotal(entries, n) == ContentTotal(entries, k)
    decreases n
  {
    if k < n {
      ContentTotalErrSticks(entries, k, n - 1);
    }
  }

  /** The total is the sum of the entries' content lengths, and it fails
      exactly when some entry has no content. */
  lemma {:induction false} ContentTotalSpec(entries: seq<Entry>, n: nat)
    requires n <= |entries|
    ensures ContentTotal(entries, n).Ok? <==> forall i :: 0 <= i < n ==> "content" in entries[i]
    ensures ContentTotal(entries, n).Ok? && n > 0 ==>
      ContentTotal(entries, n).value >= |entries[n - 1]["content"]|
  {
    if n > 0 {
      ContentTotalSpec(entries, n - 1);
    }
  }

  /** The context length counts the prompt and never less; a `None`
      history raises (once the size is known), and an empty one adds
      nothing. */
  lemma ContextLengthBounds(ctx: string, prompt: string, history: Option<seq<Entry>>)
    requires ctx in Config.CtxSizes
    ensures ContextLengthOf(ctx, prompt, history).Ok? ==> ContextLengthOf(ctx, prompt, history).value >= |prompt|
    ensures history.None? ==> ContextLengthOf(ctx, prompt, history) == Err(NoLen)
    ensures history == Some([]) ==> ContextLengthOf(ctx, prompt, history) == Ok(|prompt|)
  {
  }

  /** Entries older than the window do not count: with `tiny` only the last
      two entries matter and with `medium` only the last ten. */
  lemma OlderHistoryIgnored(ctx: string, prompt: string, older: seq<Entry>, recent: seq<Entry>)
    requires ctx == "tiny" || ctx == "medium"
    requires |recent| == Rounds(ctx)
    ensures ContextLengthOf(ctx, prompt, Some(older + recent)) == ContextLengthOf(ctx, prompt, Some(recent))
  {
    var k := Rounds(ctx);
    assert CtxLimits(ctx).value.hist == Some(-(k as int));
    WindowKeepsRecent(older, recent, k);
    SameWindowSameLength(ctx, prompt, older + recent, recent);
  }

  /** The context length depends on the history only through its window. */
  lemma SameWindowSameLength(ctx: string, prompt: string, h1: seq<Entry>, h2: seq<Entry>)
    requires ctx in Config.CtxSizes && h1 != [] && h2 != []
    requires Window(h1, CtxLimits(ctx).value.hist) == Window(h2, CtxLimits(ctx).value.hist)
    ensures ContextLengthOf(ctx, prompt, Some(h1)) == ContextLengthOf(ctx, prompt, Some(h2))
  {
  }

  /** A window of the last `k` entries sees only the most recent `k`. */
  lemma WindowKeepsRecent<T>(older: seq<T>, recent: seq<T>, k: nat)
    requires k > 0 && |recent| == k
    ensures Window(older + recent, Some(-(k as int))) == recent
    ensures Window(recent, Some(-(k as int))) == recent
  {
    var all := older + recent;
    assert |Drop(all, -(k as int))| == k;
    assert all[|all| - k..] == recent;
    assert |Drop(recent, -(k as int))| == k;
  }

  // ---------------------------------------------------------------------
  // chat_with_backend

  const OverflowMarker: string := "\n\n> **[系统错误]** 上下文超长，模型崩溃\U{1F635}\U{1F4AB}\U{1F92F}\U{1F607}"
  const ConnectionMarker: string := "\n\n> **[系统错误]** 模型连接中断\U{1F915}\U{1F915}\U{1F915}"

  /** Calling `chat` when it is not bound. */
  const ChatUnbound := NameError("chat")
  /** Slicing a `None` history. */
  const NoneSliced := TypeError("'NoneType' object is not subscriptable")

  /** The prompt: the RAG prompt when a retrieval mode is set, the message
      itself otherwise. */
  function PromptFor(ctx: string, mode: Option<string>, message: string, knowledgeList: seq<Scored>): Result<string> {
    if Truthy(mode) then
      var lim :- CtxLimits(ctx);
      RagPrompt(message, knowledgeList, lim.kn)
    else Ok(message)
  }

  /** The chunks joined in arrival order. */
  function Concat(chunks: seq<string>): string {
    if chunks == [] then [] else Concat(chunks[..|chunks| - 1]) + chunks[|chunks| - 1]
  }

  /** Concatenation respects splitting the chunks anywhere. */
  lemma {:induction false} ConcatAppend(a: seq<string>, b: seq<string>)
    ensures Concat(a + b) == Concat(a) + Concat(b)
    decreases |b|
  {
    if b == [] {
      assert a + b == a;
    } else {
      assert (a + b)[..|a + b| - 1] == a + b[..|b| - 1];
      ConcatAppend(a, b[..|b| - 1]);
    }
  }

  /** What is appended once the stream stops. */
  function EndMarker(end: End): string {
    match end
    case Finished => ""
    case Raised(e) => if e == RemoteProtocolError then OverflowMarker else ConnectionMarker
  }

  /** The content after the `try`: the streamed chunks, then the marker. */
  function Content(s: Stream): string {
    Concat(s.chunks) + EndMarker(s.end)
  }

  /** The stream `chat` would produce for the window of the history. */
  function Streamed(apiUrl: string, lim: Limits, prompt: string, systemPrompt: Option<string>,
                    history: Option<seq<Entry>>, temperature: Option<real>, timeout: int,
                    send: Request<ChatPayload> -> Result<HttpResponse>, decode: string -> Option<Json>): Stream
  {
    if LimitSet(lim.hist) && history.None? then Stream([], Raised(NoneSliced))
    else
      var window := if LimitSet(lim.hist) then Some(Window(history.value, lim.hist)) else history;
      Chat(apiUrl, Payload(prompt, systemPrompt, window, temperature, true, timeout), send, decode)
  }

  /** `chat_with_backend` with `chat` imported from the backend module: the
      steps before the `try` can raise; inside it, every failure becomes a
      marker after the partial reply. */
  function ChatReply(ctx: string, apiUrl: string, mode: Option<string>, message: string,
                     knowledgeList: seq<Scored>, systemPrompt: Option<string>, history: Option<seq<Entry>>,
                     temperature: Option<real>, timeout: int,
                     send: Request<ChatPayload> -> Result<HttpResponse>, decode: string -> Option<Json>): Result<string>
  {
    var prompt :- PromptFor(ctx, mode, message, knowledgeList);
    var _ :- ContextLengthOf(ctx, prompt, history);
    var lim :- CtxLimits(ctx);
    Ok(Content(Streamed(apiUrl, lim, prompt, systemPrompt, history, temperature, timeout, send, decode)))
  }

  /** `chat_with_backend` as written: the import of `chat` is commented out,
      so the call raises `NameError`, which the generic handler catches. */
  function ChatReplyAsWritten(ctx: string, mode: Option<string>, message: string, knowledgeList: seq<Scored>,
                              history: Option<seq<Entry>>): Result<string>
  {
    var prompt :- PromptFor(ctx, mode, message, knowledgeList);
    var _ :- ContextLengthOf(ctx, prompt, history);
    var lim :- CtxLimits(ctx);
    var s := Stream([], Raised(ChatUnbound));
    Ok(Content(s))
  }

  /** As written, every reply that gets past the prompt is the
      connection-error marker alone, whatever the service would answer;
      with `chat` bound, a stream that finishes gives its chunks. */
  lemma ChatUnboundAlwaysDisconnected(ctx: string, apiUrl: string, mode: Option<string>, message: string,
                                      knowledgeList: seq<Scored>, systemPrompt: Option<string>,
                                      history: Option<seq<Entry>>, temperature: Option<real>, timeout: int,
                                      send: Request<ChatPayload> -> Result<HttpResponse>, decode: string -> Option<Json>)
    ensures var w := ChatReplyAsWritten(ctx, mode, message, knowledgeList, history);
      var c := ChatReply(ctx, apiUrl, mode, message, knowledgeList, systemPrompt, history, temperature, timeout,
                         send, decode);
      && (w.Ok? <==> c.Ok?)
      && (w.Err? ==> w == c)
      && (w.Ok? ==> w.value == ConnectionMarker)
  {
  }

  /** A concrete case: the service streams one delta and finishes. */
  lemma ChatUnboundDropsReply(apiUrl: string, delta: string, send: Request<ChatPayload> -> Result<HttpResponse>,
                              decode: string -> Option<Json>)
    requires forall q :: send(q) == Ok(HttpResponse(true, ["data: {}"], None))
    requires forall d :: decode(d) == Some(Object(map["delta" := delta]))
    ensures && ChatReply("large", apiUrl, None, "hi", [], None, Some([]), None, 180, send, decode) == Ok(delta)
      && ChatReplyAsWritten("large", None, "hi", [], Some([])) == Ok(ConnectionMarker)
  {
    var line := "data: {}";
    assert StartsWith(line, DataPrefix);
    assert line[|DataPrefix|..] == "{}";
    assert Strip("{}") == "{}" by {
      StripOfStripped("{}");
    }
    assert ["data: {}"][1..] == [];
    assert Deltas(["data: {}"], None, decode) == Stream([delta], Finished);
    var s := Streamed(apiUrl, Limits(None, None), "hi", None, Some([]), None, 180, send, decode);
    assert s == Stream([delta], Finished);
    assert Concat([delta]) == [] + delta;
    assert Content(s) == delta;
    assert Content(Stream([], Raised(ChatUnbound))) == ConnectionMarker by {
      assert [] + ConnectionMarker == ConnectionMarker;
    }
  }

  /** The reply holds the streamed chunks in arrival order, followed by the
      overflow marker after a protocol error, by the connection marker
      after any other error, and by nothing when the stream finished. */
  lemma ContentSpec(s: Stream)
    ensures StartsWith(Content(s), Concat(s.chunks))
    ensures s.end == Finished ==> Content(s) == Concat(s.chunks)
    ensures s.end == Raised(RemoteProtocolError) ==> Content(s) == Concat(s.chunks) + OverflowMarker
    ensures s.end.Raised? && s.end.error != RemoteProtocolError ==> Content(s) == Concat(s.chunks) + ConnectionMarker
  {
    assert Content(s)[..|Concat(s.chunks)|] == Concat(s.chunks);
  }

  /** A size the table does not know raises `KeyError` before anything is
      sent. */
  lemma UnknownCtxSizeRaises(ctx: string, apiUrl: string, mode: Option<string>, message: string,
                             knowledgeList: seq<Scored>, systemPrompt: Option<string>,
                             history: Option<seq<Entry>>, temperature: Option<real>, timeout: int,
                             send: Request<ChatPayload> -> Result<HttpResponse>, decode: string -> Option<Json>)
    requires ctx !in Config.CtxSizes
    ensures ChatReply(ctx, apiUrl, mode, message, knowledgeList, systemPrompt, history, temperature, timeout,
                      send, decode) == Err(KeyError(ctx))
  {
  }

  /** Without a retrieval mode the message is the prompt; with one, the
      RAG prompt limited by the size's segment count. */
  lemma PromptChoice(ctx: string, mode: Option<string>, message: string, knowledgeList: seq<Scored>)
    requires ctx in Config.CtxSizes
    ensures !Truthy(mode) ==> PromptFor(ctx, mode, message, knowledgeList) == Ok(message)
    ensures Truthy(mode) ==>
      PromptFor(ctx, mode, message, knowledgeList) == RagPrompt(message, knowledgeList, CtxLimits(ctx).value.kn)
  {
  }

  /** A `None` history makes the length accounting raise, so no reply is
      produced at all. */
  lemma NoneHistoryRaises(ctx: string, apiUrl: string, mode: Option<string>, message: string,
                          knowledgeList: seq<Scored>, systemPrompt: Option<string>, temperature: Option<real>,
                          timeout: int, send: Request<ChatPayload> -> Result<HttpResponse>,
                          decode: string -> Option<Json>)
    requires ctx in Config.CtxSizes && PromptFor(ctx, mode, message, knowledgeList).Ok?
    ensures ChatReply(ctx, apiUrl, mode, message, knowledgeList, systemPrompt, None, temperature, timeout,
                      send, decode) == Err(NoLen)
  {
  }

  /** The choice of prompt at the head of `chat_with_backend`. */
  method MakePrompt(ctx: string, mode: Option<string>, message: string, knowledgeList: seq<Scored>)
    returns (r: Result<string>)
    ensures r == PromptFor(ctx, mode, message, knowledgeList)
  {
    if Truthy(mode) {
      var lim := CtxLimits(ctx);
      if lim.Err? {
        return Err(lim.error);
      }
      r := CreateRagPrompt(message, knowledgeList, lim.value.kn);
    } else {
      r := Ok(message);
    }
  }

  /** The `try` block of `chat_with_backend`: the call, the `async for`
      loop that accumulates the reply, and the handlers that append a
      marker. */
  method Converse(apiUrl: string, lim: Limits, prompt: string, systemPrompt: Option<string>,
                  history: Option<seq<Entry>>, temperature: Option<real>, timeout: int,
                  send: Request<ChatPayload> -> Result<HttpResponse>, decode: string -> Option<Json>)
    returns (content: string)
    ensures content == Content(Streamed(apiUrl, lim, prompt, systemPrompt, history, temperature, timeout, send, decode))
  {
    content := "";
    var chunks: seq<string>;
    var end: End;
    if LimitSet(lim.hist) && history.None? {
      chunks, end := [], Raised(NoneSliced);
    } else {
      var window := if LimitSet(lim.hist) then Some(Window(history.value, lim.hist)) else history;
      var sent := send(Request(apiUrl + "/v1/llm/chat", Payload(prompt, systemPrompt, window, temperature, true, timeout)));
      if sent.Err? {
        chunks, end := [], Raised(sent.error);
      } else {
        chunks, end := StreamResponse(sent.value, decode);
      }
    }
    var i := 0;
    while i < |chunks|
      invariant 0 <= i <= |chunks|
      invariant content == Concat(chunks[..i])
    {
      assert chunks[..i + 1][..i] == chunks[..i];
      content := content + chunks[i];
      i := i + 1;
    }
    assert chunks[..i] == chunks;
    if end.Raised? {
      if end.error == RemoteProtocolError {
        content := content + OverflowMarker;
      } else {
        content := content + ConnectionMarker;
      }
    } else {
      assert content == content + "";
    }
  }

  /** `chat_with_backend` with `chat` bound: the prompt, the length
      accounting, the history limit, then the `try` block. */
  method ChatWithBackend(ctx: string, apiUrl: string, mode: Option<string>, message: string,
                         knowledgeList: seq<Scored>, systemPrompt: Option<string>, history: Option<seq<Entry>>,
                         temperature: Option<real>, timeout: int,
                         send: Request<ChatPayload> -> Result<HttpResponse>, decode: string -> Option<Json>)
    returns (r: Result<string>)
    ensures r == ChatReply(ctx, apiUrl, mode, message, knowledgeList, systemPrompt, history, temperature, timeout,
                           send, decode)
  {
    var prompt := MakePrompt(ctx, mode, message, knowledgeList);
    if prompt.Err? {
      return Err(prompt.error);
    }
    var length := ContextLength(ctx, prompt.value, history);
    if length.Err? {
      return Err(length.error);
    }
    var lim := CtxLimits(ctx).value;
    var content := Converse(apiUrl, lim, prompt.value, systemPrompt, history, temperature, timeout, send, decode);
    r := Ok(content);
  }

  // ---------------------------------------------------------------------
  // The accepted spelling of `ctx_size`

  /** The configuration step accepts `TINY` and keeps it as it is, and the
      table then has no row for it. */
  lemma UpperCaseCtxSizeUnknown(m: Kernel.Attr)
    ensures Config.CtxStage(Config.Root(m, Config.Services("TINY")))
            == Ok(Config.Root(m, Config.Services("TINY")))
    ensures CtxLimits("TINY") == Err(KeyError("TINY"))
  {
    assert Lower("TINY") == "tiny";
    Config.CtxStageSpec(m, "TINY");
  }

  /** The stored size as the check evidently intends: the lower-case
      spelling when it is accepted, `large` otherwise. */
  function CtxSizeLowered(ctx: string): string {
    if Lower(ctx) in Config.CtxSizes then Lower(ctx) else "large"
  }

  /** Stored that way, every size has a row, and a size in any letter case
      selects the row of its lower-case spelling. */
  lemma LoweredCtxSizeKnown(ctx: string)
    ensures CtxLimits(CtxSizeLowered(ctx)).Ok?
    ensures Lower(ctx) in Config.CtxSizes ==> CtxLimits(CtxSizeLowered(ctx)) == CtxLimits(Lower(ctx))
    ensures CtxSizeLowered("TINY") == "tiny"
  {
    assert Lower("TINY") == "tiny";
  }
}
