/** src/hurag_webui/backend.py: the request `chat` sends to the language
    model service, the filter that turns its streamed response into text
    deltas, and `rag_retrieve`. The HTTP exchange is the parameter `send`
    (from the request to the response, or the error the client raises) and
    `json.loads` is the parameter `decode` (`None` for a JSON decode error).
    The response lines are what `aiter_lines` delivers; `cut` is the error
    the transport raises after the last of them, if any. */
module Backend {
  import opened Wrappers
  import opened Text

  /** A history entry of the chat service: a `role`/`content` dict. */
  type Entry = map<string, string>

  /** The JSON body of a chat request. The temperature is carried as it
      is. */
  datatype ChatPayload = ChatPayload(prompt: string, systemPrompt: Option<string>, history: seq<Entry>,
                                     temperature: Option<real>, stream: bool, timeout: int)

  /** `history or []`. */
  function HistoryOrEmpty<T>(history: Option<seq<T>>): (r: seq<T>)
    ensures history.Some? ==> r == history.value
    ensures history.None? ==> r == []
  {
    if history.Some? && history.value != [] then history.value else []
  }

  /** The payload of `chat`. */
  function Payload(prompt: string, systemPrompt: Option<string>, history: Option<seq<Entry>>,
                   temperature: Option<real>, stream: bool, timeout: int): ChatPayload
  {
    ChatPayload(prompt, systemPrompt, HistoryOrEmpty(history), temperature, stream, timeout)
  }

  /** A missing history and an empty one send the same request. */
  lemma NoneHistorySentEmpty(prompt: string, systemPrompt: Option<string>, temperature: Option<real>,
                             stream: bool, timeout: int)
    ensures Payload(prompt, systemPrompt, None, temperature, stream, timeout)
         == Payload(prompt, systemPrompt, Some([]), temperature, stream, timeout)
  {
  }

  /** What the service answers: whether `raise_for_status` passes, the
      lines of the body, and the error that interrupts the body, if any. */
  datatype HttpResponse = HttpResponse(statusOk: bool, lines: seq<string>, cut: Option<Error>)

  datatype Request<P> = Request(url: string, payload: P)

  /** A decoded JSON value: an object (with string values) or anything
      else. */
  datatype Json = Object(fields: map<string, string>) | Other

  /** How a stream ends: after its last delta, or by raising. */
  datatype End = Finished | Raised(error: Error)

  /** The deltas a stream yields, in order, and how it ends. */
  datatype Stream = Stream(chunks: seq<string>, end: End)

  const DataPrefix: string := "data: "
  const DoneMarker: string := "[DONE]"

  /** Subscripting a decoded value that is not an object with a string. */
  const NotSubscriptable := TypeError("indices must be integers")

  /** A line `stream_response` skips: one that is not a `data: ` line, or
      whose payload is not JSON. */
  predicate Skipped(line: string, decode: string -> Option<Json>) {
    !StartsWith(line, DataPrefix)
    || (Strip(line[|DataPrefix|..]) != DoneMarker && decode(line[|DataPrefix|..]).None?)
  }

  /** A line that ends the stream. */
  predicate IsDone(line: string) {
    StartsWith(line, DataPrefix) && Strip(line[|DataPrefix|..]) == DoneMarker
  }

  /** `stream_response` after `raise_for_status`, on the lines from the
      first of `lines` on. */
  function Deltas(lines: seq<string>, cut: Option<Error>, decode: string -> Option<Json>): Stream
    decreases |lines|
  {
    if lines == [] then Stream([], if cut.Some? then Raised(cut.value) else Finished)
    else
      var line := lines[0];
      if !StartsWith(line, DataPrefix) then Deltas(lines[1..], cut, decode)
      else
        var data := line[|DataPrefix|..];
        if Strip(data) == DoneMarker then Stream([], Finished)
        else
          match decode(data)
          case None => Deltas(lines[1..], cut, decode)
          case Some(Other) => Stream([], Raised(NotSubscriptable))
          case Some(Object(fields)) =>
            if "delta" in fields then
              var rest := Deltas(lines[1..], cut, decode);
              Stream([fields["delta"]] + rest.chunks, rest.end)
            else Stream([], Raised(KeyError("delta")))
  }

  /** `stream_response()`: an error status raises before any line is
      read. */
  function ChatStream(resp: HttpResponse, decode: string -> Option<Json>): Stream {
    if !resp.statusOk then Stream([], Raised(HttpError)) else Deltas(resp.lines, resp.cut, decode)
  }

  /** `chat(..., stream=True)`: the stream over the response to the
      request built from the arguments; a failing connection raises when
      the stream is first read. */
  function Chat(apiUrl: string, payload: ChatPayload, send: Request<ChatPayload> -> Result<HttpResponse>,
                decode: string -> Option<Json>): Stream
  {
    match send(Request(apiUrl + "/v1/llm/chat", payload))
    case Err(e) => Stream([], Raised(e))
    case Ok(resp) => ChatStream(resp, decode)
  }

  /** The loop of `stream_response`, with its `continue`s and `break`. */
  method StreamResponse(resp: HttpResponse, decode: string -> Option<Json>)
    returns (chunks: seq<string>, end: End)
    ensures Stream(chunks, end) == ChatStream(resp, decode)
  {
    chunks := [];
    if !resp.statusOk {
      return chunks, Raised(HttpError);
    }
    var lines := resp.lines;
    var i := 0;
    while i < |lines|
      invariant 0 <= i <= |lines|
      invariant var rest := Deltas(lines[i..], resp.cut, decode);
        ChatStream(resp, decode) == Stream(chunks + rest.chunks, rest.end)
    {
      var line := lines[i];
      assert lines[i..][1..] == lines[i + 1..];
      if !StartsWith(line, DataPrefix) {
        i := i + 1;
        continue;
      }
      var data := line[|DataPrefix|..];
      if Strip(data) == DoneMarker {
        return chunks, Finished;
      }
      var value := decode(data);
      if value.None? {
        i := i + 1;
        continue;
      }
      if value.value.Other? {
        return chunks, Raised(NotSubscriptable);
      }
      if "delta" !in value.value.fields {
        return chunks, Raised(KeyError("delta"));
      }
      chunks := chunks + [value.value.fields["delta"]];
      i := i + 1;
    }
    end := if resp.cut.Some? then Raised(resp.cut.value) else Finished;
  }

  /** Skipped lines make no difference wherever they occur. */
  lemma {:induction false} SkippedLineIgnored(a: seq<string>, x: string, b: seq<string>, cut: Option<Error>,
                                              decode: string -> Option<Json>)
    requires Skipped(x, decode)
    ensures Deltas(a + [x] + b, cut, decode) == Deltas(a + b, cut, decode)
  {
    if a == [] {
      assert a + [x] + b == [x] + b && ([x] + b)[1..] == b && a + b == b;
    } else {
      assert (a + [x] + b)[1..] == a[1..] + [x] + b;
      assert (a + b)[1..] == a[1..] + b;
      assert (a + [x] + b)[0] == a[0] == (a + b)[0];
      SkippedLineIgnored(a[1..], x, b, cut, decode);
    }
  }

  /** Nothing after a `[DONE]` line is read: the stream is the same as if
      the body ended there without error. */
  lemma {:induction false} DoneEndsStream(a: seq<string>, d: string, b: seq<string>, cut: Option<Error>,
                                          decode: string -> Option<Json>)
    requires IsDone(d)
    ensures Deltas(a + [d] + b, cut, decode) == Deltas(a + [d], None, decode)
  {
    if a == [] {
      assert a + [d] + b == [d] + b && a + [d] == [d];
    } else {
      assert (a + [d] + b)[1..] == a[1..] + [d] + b;
      assert (a + [d])[1..] == a[1..] + [d];
      assert (a + [d] + b)[0] == a[0] == (a + [d])[0];
      DoneEndsStream(a[1..], d, b, cut, decode);
    }
  }

  /** A line whose payload is an object with a `delta`. */
  predicate DeltaLine(line: string, decode: string -> Option<Json>) {
    StartsWith(line, DataPrefix) && Strip(line[|DataPrefix|..]) != DoneMarker
    && decode(line[|DataPrefix|..]).Some? && decode(line[|DataPrefix|..]).value.Object?
    && "delta" in decode(line[|DataPrefix|..]).value.fields
  }

  function DeltaOf(line: string, decode: string -> Option<Json>): string
    requires DeltaLine(line, decode)
  {
    decode(line[|DataPrefix|..]).value.fields["delta"]
  }

  /** When every line carries a delta, the stream yields one delta per
      line, in line order, and ends as the body does. */
  lemma {:induction false} DeltasInOrder(lines: seq<string>, cut: Option<Error>, decode: string -> Option<Json>)
    requires forall i :: 0 <= i < |lines| ==> DeltaLine(lines[i], decode)
    ensures |Deltas(lines, cut, decode).chunks| == |lines|
    ensures forall i :: 0 <= i < |lines| ==> Deltas(lines, cut, decode).chunks[i] == DeltaOf(lines[i], decode)
    ensures Deltas(lines, cut, decode).end == if cut.Some? then Raised(cut.value) else Finished
  {
    if lines != [] {
      assert DeltaLine(lines[0], decode);
      DeltasInOrder(lines[1..], cut, decode);
    }
  }

  /** A `data: ` line whose object has no `delta` raises `KeyError`; the
      deltas before it have already been yielded. */
  lemma {:induction false} MissingDeltaRaises(a: seq<string>, x: string, b: seq<string>, cut: Option<Error>,
                                              decode: string -> Option<Json>)
    requires forall i :: 0 <= i < |a| ==> DeltaLine(a[i], decode)
    requires StartsWith(x, DataPrefix) && Strip(x[|DataPrefix|..]) != DoneMarker
    requires decode(x[|DataPrefix|..]) == Some(Object(map[]))
    ensures Deltas(a + [x] + b, cut, decode).end == Raised(KeyError("delta"))
    ensures |Deltas(a + [x] + b, cut, decode).chunks| == |a|
  {
    if a == [] {
      assert a + [x] + b == [x] + b;
    } else {
      assert (a + [x] + b)[1..] == a[1..] + [x] + b;
      assert (a + [x] + b)[0] == a[0];
      assert DeltaLine(a[0], decode);
      MissingDeltaRaises(a[1..], x, b, cut, decode);
    }
  }

  // ---------------------------------------------------------------------
  // rag_retrieve

  /** The JSON body of a retrieval request. */
  datatype RetrievePayload = RetrievePayload(query: string, history: seq<string>, graphSearch: string,
                                             userPath: string)

  /** `rag_retrieve(query, history, mode, user_path)`. `requested` is the
      request sent, `None` when none is; any failure of the request gives
      an empty list. */
  function RagRetrieve<K>(apiUrl: string, query: string, history: Option<seq<string>>, mode: Option<string>,
                          userPath: string, post: Request<RetrievePayload> -> Result<seq<K>>)
    : (r: (seq<K>, Option<Request<RetrievePayload>>))
    ensures mode.None? <==> r.1.None?
    ensures mode.None? ==> r.0 == []
    ensures mode.Some? ==> r.1 == Some(Request(apiUrl + "/v1/hurag/retrieve",
                                               RetrievePayload(query, HistoryOrEmpty(history), mode.value, userPath)))
    ensures mode.Some? && post(r.1.value).Err? ==> r.0 == []
    ensures mode.Some? && post(r.1.value).Ok? ==> r.0 == post(r.1.value).value
  {
    if mode.None? then ([], None)
    else
      var request := Request(apiUrl + "/v1/hurag/retrieve",
                             RetrievePayload(query, HistoryOrEmpty(history), mode.value, userPath));
      match post(request)
      case Err(_) => ([], Some(request))
      case Ok(data) => (data, Some(request))
  }
}
