/** The lifespan holder of the chat-completions client
    (src/hurag_webui/clients.py): two fields, `model` and `client`, and the
    operations `started`, `startup` and `shutdown`. There is no lock, no
    intermediate state and no completion signal: the holder is a plain
    two-state machine, "started" exactly when `client` is set.

    The class `LifespanClient` is the holder itself. The functions on
    `ClientState` describe the same two fields as a value, so that whole
    sequences of calls can be reasoned about in lemmas. */
module Clients {
  import opened Wrappers

  type HandleId = nat

  /** A client object as built by `create_client(base_url=…, api_key=…)`:
      opaque except for the arguments it was built from and the number of
      times its asynchronous `close()` has been called. */
  class ChatHandle {
    const id: HandleId
    const baseUrl: string
    const apiKey: string
    var closeCalls: nat

    constructor (id: HandleId, baseUrl: string, apiKey: string)
      ensures this.id == id && this.baseUrl == baseUrl && this.apiKey == apiKey
      ensures closeCalls == 0
    {
      this.id := id;
      this.baseUrl := baseUrl;
      this.apiKey := apiKey;
      closeCalls := 0;
    }

    /** `await client.close()`. Whether the close raises is decided outside
        the program (the network), so it is a parameter. */
    method Close(fails: bool) returns (r: Result<()>)
      modifies this
      ensures closeCalls == old(closeCalls) + 1
      ensures r.Err? <==> fails
    {
      closeCalls := closeCalls + 1;
      r := if fails then Err(CloseFailed) else Ok(());
    }
  }

  /** The two fields of a holder, with the client given by its handle id. */
  datatype ClientState = ClientState(model: Option<string>, client: Option<HandleId>)

  /** A freshly constructed holder: both class attributes are `None`. */
  const Fresh: ClientState := ClientState(None, None)

  /** The `started` property: `client is not None`. */
  predicate Started(s: ClientState) {
    s.client.Some?
  }

  /** `startup(base_url, api_key, model)`. `model` is assigned first; then
      `create_client` runs, and if it returns (`created` is its handle) the
      handle replaces whatever `client` held, without closing it. When
      `create_client` raises (`created == None`), `client` is left as it was
      while `model` has already been overwritten. */
  function StartupStep(s: ClientState, model: string, created: Option<HandleId>): ClientState {
    ClientState(Some(model), if created.Some? then created else s.client)
  }

  /** What one `shutdown()` does: the new fields, the handle whose `close()`
      was called (if any) and whether the call raised. */
  datatype ShutdownOutcome = ShutdownOutcome(state: ClientState, closed: Option<HandleId>, raised: bool)

  /** `shutdown()`: `model := None`; if a client is held, await its close;
      then `client := None`. A close that raises skips the last assignment. */
  function ShutdownStep(s: ClientState, closeFails: bool): ShutdownOutcome {
    match s.client
    case None => ShutdownOutcome(ClientState(None, None), None, false)
    case Some(h) =>
      if closeFails then ShutdownOutcome(ClientState(None, Some(h)), Some(h), true)
      else ShutdownOutcome(ClientState(None, None), Some(h), false)
  }

  /** The holder object of clients.py, including the process-wide
      `chat_client` instance, which is one `LifespanClient()`. */
  class LifespanClient {
    var model: Option<string>
    var client: ChatHandle?

    constructor ()
      ensures model == None && client == null
      ensures State() == Fresh
    {
      model := None;
      client := null;
    }

    function State(): ClientState
      reads this
    {
      ClientState(model, if client == null then None else Some(client.id))
    }

    /** The `started` property. */
    predicate IsStarted()
      reads this
      ensures IsStarted() <==> Started(State())
    {
      client != null
    }

    /** `startup(base_url, api_key, model)`; `created` is what
        `create_client(base_url=base_url, api_key=api_key)` returned, or `None`
        when it raised. */
    method Startup(baseUrl: string, apiKey: string, model: string, created: Option<ChatHandle>)
      returns (r: Result<()>)
      requires created.Some? ==> created.value.baseUrl == baseUrl && created.value.apiKey == apiKey
      modifies this
      ensures State() == StartupStep(old(State()), model, if created.Some? then Some(created.value.id) else None)
      ensures created.Some? ==> client == created.value
      ensures created.None? ==> client == old(client)
      ensures r.Err? <==> created.None?
    {
      this.model := Some(model);
      if created.None? {
        return Err(RuntimeError("create_client failed"));
      }
      client := created.value;
      r := Ok(());
    }

    /** `shutdown()`. `closeFails` says whether the held client's `close()`
        raises; the exception then propagates to the caller. */
    method Shutdown(closeFails: bool) returns (r: Result<()>)
      modifies this, client
      ensures var o := ShutdownStep(old(State()), closeFails);
        State() == o.state && (r.Err? <==> o.raised)
      ensures old(client) != null ==> old(client).closeCalls == old(client.closeCalls) + 1
      ensures client == (if closeFails then old(client) else null)
      ensures model == None
    {
      model := None;
      if client != null {
        var c := client.Close(closeFails);
        if c.Err? {
          return c;
        }
      }
      client := null;
      r := Ok(());
    }
  }

  // ---------------------------------------------------------------------
  // Sequences of calls on one holder.

  datatype Event =
    | StartupCall(model: string, created: Option<HandleId>)
    | ShutdownCall(closeFails: bool)

  /** The fields after some calls, and the handles closed so far, in order. */
  datatype Trace = Trace(state: ClientState, closes: seq<HandleId>)

  function Step(t: Trace, e: Event): Trace {
    match e
    case StartupCall(m, c) => Trace(StartupStep(t.state, m, c), t.closes)
    case ShutdownCall(f) =>
      var o := ShutdownStep(t.state, f);
      Trace(o.state, t.closes + (if o.closed.Some? then [o.closed.value] else []))
  }

  /** Performing the calls of `evs` one after the other, starting from `t`. */
  function Exec(t: Trace, evs: seq<Event>): Trace
    decreases |evs|
  {
    if evs == [] then t else Exec(Step(t, evs[0]), evs[1..])
  }

  lemma {:induction false} ExecAppend(t: Trace, evs: seq<Event>, e: Event)
    ensures Exec(t, evs + [e]) == Step(Exec(t, evs), e)
    decreases |evs|
  {
    if evs == [] {
      assert evs + [e] == [e];
    } else {
      assert (evs + [e])[1..] == evs[1..] + [e];
      ExecAppend(Step(t, evs[0]), evs[1..], e);
    }
  }

  /** An independent description of when the holder ends up started: looking
      back from the last call, a `startup` whose `create_client` returned
      makes it started, a `shutdown` keeps it started only when its close
      raised, and a `startup` whose `create_client` raised changes nothing. */
  predicate StartedAfter(startedBefore: bool, evs: seq<Event>)
    decreases |evs|
  {
    if evs == [] then startedBefore
    else
      var prefix := evs[..|evs| - 1];
      match evs[|evs| - 1]
      case StartupCall(_, c) => c.Some? || StartedAfter(startedBefore, prefix)
      case ShutdownCall(f) => f && StartedAfter(startedBefore, prefix)
  }

  lemma {:induction false} StartedIffStartedAfter(t: Trace, evs: seq<Event>)
    ensures Started(Exec(t, evs).state) <==> StartedAfter(Started(t.state), evs)
    decreases |evs|
  {
    if evs != [] {
      var prefix := evs[..|evs| - 1];
      assert prefix + [evs[|evs| - 1]] == evs;
      ExecAppend(t, prefix, evs[|evs| - 1]);
      StartedIffStartedAfter(t, prefix);
    }
  }

  /** The handles a sequence of calls can ever hold: the one held at the
      start and every handle a `startup` installed. */
  function Installed(s: ClientState, evs: seq<Event>): set<HandleId> {
    (if s.client.Some? then {s.client.value} else {})
    + set i | 0 <= i < |evs| && evs[i].StartupCall? && evs[i].created.Some? :: evs[i].created.value
  }

  /** Only handles the holder actually held are ever closed. */
  lemma {:induction false} ClosesAreInstalled(t: Trace, evs: seq<Event>, ids: set<HandleId>)
    requires t.state.client.Some? ==> t.state.client.value in ids
    requires forall h :: h in t.closes ==> h in ids
    requires Installed(t.state, evs) <= ids
    ensures forall h :: h in Exec(t, evs).closes ==> h in ids
    decreases |evs|
  {
    if evs != [] {
      var t' := Step(t, evs[0]);
      assert Installed(t'.state, evs[1..]) <= ids by {
        forall h | h in Installed(t'.state, evs[1..]) ensures h in ids {
          if t'.state.client == Some(h) {
            if evs[0].StartupCall? && evs[0].created.Some? {
              assert h == evs[0].created.value;
            }
          } else {
            var i :| 0 <= i < |evs[1..]| && evs[1..][i].StartupCall? && evs[1..][i].created.Some?
              && evs[1..][i].created.value == h;
            assert evs[i + 1] == evs[1..][i];
          }
        }
      }
      ClosesAreInstalled(t', evs[1..], ids);
    }
  }

  function ShutdownCount(evs: seq<Event>): nat {
    if evs == [] then 0 else (if evs[0].ShutdownCall? then 1 else 0) + ShutdownCount(evs[1..])
  }

  /** Each `shutdown` closes at most one handle; `startup` closes none. */
  lemma {:induction false} ClosesBoundedByShutdowns(t: Trace, evs: seq<Event>)
    ensures |Exec(t, evs).closes| <= |t.closes| + ShutdownCount(evs)
    decreases |evs|
  {
    if evs != [] {
      ClosesBoundedByShutdowns(Step(t, evs[0]), evs[1..]);
    }
  }

  /** A handle that is not held and that no later `startup` installs is
      never closed again. In particular a handle replaced by a `startup`
      while started is never closed: the replacement leaks it. */
  lemma {:induction false} DroppedHandleNeverClosed(t: Trace, evs: seq<Event>, h: HandleId)
    requires t.state.client != Some(h)
    requires forall i :: 0 <= i < |evs| && evs[i].StartupCall? ==> evs[i].created != Some(h)
    ensures multiset(Exec(t, evs).closes)[h] == multiset(t.closes)[h]
    decreases |evs|
  {
    if evs != [] {
      var t' := Step(t, evs[0]);
      assert multiset(t'.closes)[h] == multiset(t.closes)[h];
      forall i | 0 <= i < |evs[1..]| && evs[1..][i].StartupCall?
        ensures evs[1..][i].created != Some(h)
      {
        assert evs[1..][i] == evs[i + 1];
      }
      DroppedHandleNeverClosed(t', evs[1..], h);
    }
  }

  /** `startup` while started replaces model and client and closes nothing. */
  lemma StartupWhileStartedReplaces(s: ClientState, m: string, h: HandleId)
    requires Started(s)
    ensures Exec(Trace(s, []), [StartupCall(m, Some(h))]) == Trace(ClientState(Some(m), Some(h)), [])
  {
  }

  /** A `shutdown` whose close succeeds returns the holder to its fresh
      state; one whose close raises has cleared `model` but keeps `client`,
      so the holder still reports started. */
  lemma ShutdownOutcomes(s: ClientState, closeFails: bool)
    ensures !closeFails ==> ShutdownStep(s, closeFails).state == Fresh
    ensures closeFails && Started(s) ==>
      var o := ShutdownStep(s, closeFails);
      o.state.model == None && o.state.client == s.client && Started(o.state) && o.raised
    ensures !Started(s) ==> ShutdownStep(s, closeFails) == ShutdownOutcome(Fresh, None, false)
  {
  }

  /** Two shutdowns in a row close the held handle once when the first close
      succeeds, and twice when it raises. */
  lemma DoubleShutdown(s: ClientState, f1: bool, f2: bool)
    ensures Exec(Trace(s, []), [ShutdownCall(f1), ShutdownCall(f2)]).closes
      == if s.client.None? then [] else if f1 then [s.client.value, s.client.value] else [s.client.value]
  {
    var evs := [ShutdownCall(f1), ShutdownCall(f2)];
    var t1 := Step(Trace(s, []), evs[0]);
    assert evs[1..] == [ShutdownCall(f2)];
    assert Exec(t1, evs[1..]) == Step(t1, ShutdownCall(f2));
  }

  /** After a successful shutdown the holder is re-enterable: a new
      `startup` leaves it exactly as a `startup` on a fresh holder does. */
  lemma Reenterable(s: ClientState, m: string, h: HandleId)
    ensures Exec(Trace(s, []), [ShutdownCall(false), StartupCall(m, Some(h))]).state
      == Exec(Trace(Fresh, []), [StartupCall(m, Some(h))]).state
  {
    var evs := [ShutdownCall(false), StartupCall(m, Some(h))];
    var t1 := Step(Trace(s, []), evs[0]);
    assert evs[1..] == [StartupCall(m, Some(h))];
    assert Exec(t1, evs[1..]) == Step(t1, evs[1]);
  }
}
