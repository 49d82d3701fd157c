# HuRAG WebUI core, modelled in Dafny

HuRAG WebUI is a web chat front end for the HuRAG retrieval-augmented
generation service. This project models its non-UI core and proves
properties of the model:

- **Application lifecycle.** The lifespan chat client holder
  (`clients.py`), the startup and shutdown of the application and the
  per-turn message storage of `main.py`, and the cached configuration
  tree and logger of `kernel.py`.
- **Configuration.** The normalisation of the configuration at import
  time in `__init__.py`.
- **Database.** The connection-pool registry, the `with_rdb` decorator
  and `transact`/`dml` of `dbs.py`, and the same for the RSS database in
  `dss/rss.py`, with its DDL script from `constants.py`.
- **Models and services.** The `Message`/`Session`/`User` models, and the
  session and citation services that build and group their rows.
- **Citations.** The `Citation` model with its markdown sanitiser, and the
  citation viewer's sort, reorder and labels.
- **Chat.** The RAG prompt builder (`prompts.py`), the backend client's
  payloads and stream filter (`backend.py`), and the chat viewer's
  context-size table, history window, length accounting and reply
  assembly (`chat_viewer.py`).
- **Search.** The full-text tokeniser's clean-up and chunked
  tokenisation (`fts/tokenizer.py`).

Every outside effect is a parameter of the model:

- the LLM and knowledge services' HTTP answers and `json.loads`;
- the database's replies, and whether a commit fails;
- the YAML loader's result and whether the configuration file exists;
- `create_client`, `generate_id` and `cpu_count`, and jieba's
  `cut_for_search`.

One Dafny module corresponds to each source file. `Wrappers` holds
`Option`/`Result` and the Python exception kinds; `Text` holds the
Python string and slice helpers the modules share.

## Model

| member | source | states |
|---|---|---|
| Clients.ChatHandle.Close | src/hurag_webui/clients.py:17 | each `close()` is counted once, and it raises exactly when the network says so |
| Clients.LifespanClient.constructor | src/hurag_webui/clients.py:1-3 | a new holder has no model and no client, so it is not started |
| Clients.LifespanClient.IsStarted | src/hurag_webui/clients.py:5-7 | `started` holds exactly when a client is held |
| Clients.LifespanClient.Startup | src/hurag_webui/clients.py:9-12 | the model is set first; the client is replaced by the created one, or kept when `create_client` raised, and then the call fails |
| Clients.LifespanClient.Shutdown | src/hurag_webui/clients.py:14-18 | the model is cleared, a held client is closed once, and the client is cleared unless its close raised |
| Clients.ExecAppend | src/hurag_webui/clients.py:9-18 | running calls one after another is running them step by step |
| Clients.StartedIffStartedAfter | src/hurag_webui/clients.py:5-18 | the holder ends up started exactly when the independent last-effective-call description says so |
| Clients.ClosesAreInstalled | src/hurag_webui/clients.py:14-18 | only handles the holder actually held are ever closed |
| Clients.ClosesBoundedByShutdowns | src/hurag_webui/clients.py:14-18 | each `shutdown` closes at most one handle and `startup` closes none |
| Clients.DroppedHandleNeverClosed | src/hurag_webui/clients.py:9-12 | a handle replaced by a later `startup` is never closed: the replacement leaks it |
| Clients.StartupWhileStartedReplaces | src/hurag_webui/clients.py:9-12 | `startup` on a started holder replaces model and client without closing the old client |
| Clients.ShutdownOutcomes | src/hurag_webui/clients.py:14-18 | a successful shutdown returns the holder to its fresh state; a failing close leaves the client held, so it still reports started |
| Clients.DoubleShutdown | src/hurag_webui/clients.py:14-18 | two shutdowns close the held client once when the first close succeeds, and twice when it raises |
| Clients.Reenterable | src/hurag_webui/clients.py:9-18 | after a successful shutdown, `startup` behaves as on a fresh holder |
| Kernel.NewTree | src/hurag_webui/kernel.py:11-17 | the `setattr` loop builds the tree the specification `TreeOf` describes |
| Kernel.TreeOfSpec | src/hurag_webui/kernel.py:11-17 | a `Tree` has one attribute per key; a later duplicate key wins, and nested mappings become nested trees |
| Kernel.PlainValuesKept | src/hurag_webui/kernel.py:16-17 | values that are not mappings, lists of mappings included, are stored as they are |
| Kernel.ConfFromFile | src/hurag_webui/kernel.py:22-30 | a missing file or an empty document gives an empty tree; a mapping gives its tree |
| Kernel.EmptyConfig | src/hurag_webui/kernel.py:24-30 | a missing, empty or `{}` configuration has no attributes |
| Kernel.Kernel.Conf | src/hurag_webui/kernel.py:22-30 | the first call reads the file and caches the result; later calls return the cache without reading |
| Kernel.Kernel.Logger | src/hurag_webui/kernel.py:33-46 | the logger is configured on the first call and the same one is returned afterwards |
| Kernel.ConfMemoised | src/hurag_webui/kernel.py:22-23 | two calls give the same configuration even when the file changes between them |
| Config.Get | src/hurag_webui/__init__.py:30-41 | attribute access succeeds exactly on an object that has that attribute, and raises `AttributeError` otherwise |
| Config.Set | src/hurag_webui/__init__.py:39-41 | assigning an attribute changes that attribute only |
| Config.LoadConfig | src/hurag_webui/__init__.py:25-45 | a missing file is a `RuntimeError`; otherwise it succeeds exactly when normalising does, with the normalised namespace; a `ValueError` from normalising propagates unchanged and any other error becomes the `RuntimeError` |
| Config.LoadedConfigValid | src/hurag_webui/__init__.py:25-45 | for every file, a loaded configuration has user, password and database not `None`, a `ctx_size` that is a known size in some case, and a truthy host and port |
| Config.RequiredOk | src/hurag_webui/__init__.py:29-37 | the check passes only on a `mariadb` object with the three settings not `None` |
| Config.CtxStageOk | src/hurag_webui/__init__.py:38-39 | after the size fallback `ctx_size` is a known size and `mariadb` is untouched |
| Config.HostPortStageOk | src/hurag_webui/__init__.py:40-41 | after the defaults host and port are truthy, the other `mariadb` settings and `services` are untouched |
| Config.MissingRequiredRaises | src/hurag_webui/__init__.py:29-37 | a `None` user, password or database raises the `ValueError`, whatever else is set |
| Config.NonValueErrorsWrapped | src/hurag_webui/__init__.py:44-45 | a missing file, an empty document or one without the sections becomes a `RuntimeError` |
| Config.RequiredPresent | src/hurag_webui/__init__.py:29-37 | with all three required settings the check passes |
| Config.CtxStageSpec | src/hurag_webui/__init__.py:38-39 | `ctx_size` is kept when its lower-case form is a known size, and becomes `large` otherwise |
| Config.HostPortStageSpec | src/hurag_webui/__init__.py:40-41 | a falsy host becomes `localhost`, a falsy port 3306; other values are kept |
| Config.NormaliseSpec | src/hurag_webui/__init__.py:29-41 | with the required settings present, normalising applies the size fallback and both defaults and changes nothing else |
| Config.UpperCaseCtxSizeKept | src/hurag_webui/__init__.py:38-39 | an upper-case known size such as `TINY` is accepted and kept as it is |
| Config.NormaliseIdempotent | src/hurag_webui/__init__.py:29-41 | normalising twice gives the same configuration as normalising once |
| Config.Settings.Apply | src/hurag_webui/__init__.py:29-41 | the in-place updates leave the configuration that `Normalise` describes, or raise its error |
| Config.Settings.ApplyCtxSize | src/hurag_webui/__init__.py:38-39 | the in-place size fallback agrees with `CtxStage` |
| Config.Settings.ApplyHostPort | src/hurag_webui/__init__.py:40-41 | the in-place defaults agree with `HostPortStage` |
| App.EnvLabel | src/hurag_webui/main.py:45 | the label is empty exactly when no label is given |
| App.EnvLabelShape | src/hurag_webui/main.py:45 | a given label appears in brackets after a space, each character mapped by `UpperChar` (ASCII letters upper-cased) |
| App.CheckSettings | src/hurag_webui/main.py:47-57 | the settings pass exactly when all three are non-empty; otherwise the first missing one is named in the `ValueError` |
| App.CheckFailureLeavesClient | src/hurag_webui/main.py:51-57 | a failed check raises `ValueError` and never touches the chat client |
| App.AwaitNoneDefect | src/hurag_webui/main.py:59 | as written, valid settings install the client and then raise `TypeError` from awaiting `None`; the corrected startup succeeds |
| App.StartupAppSpec | src/hurag_webui/main.py:44-60 | the corrected startup succeeds exactly when every setting is present and the client is created, and then the holder is started with that model |
| App.StartupAppOn | src/hurag_webui/main.py:44-60 | the startup on the process's holder leaves it as `StartupAppAsWritten` says |
| App.ShutdownOrder | src/hurag_webui/main.py:62-69 | the pool is closed first, and the chat client is shut down only when that succeeded |
| App.ShutdownAppOn | src/hurag_webui/main.py:62-69 | the shutdown on the pool registry and the holder agrees with `ShutdownApp` |
| App.Lifespan | src/hurag_webui/main.py:71-82 | the app serves exactly when the startup succeeded, shuts down exactly when serving ended normally, and fails when any phase fails |
| App.LifespanAsWrittenNeverServes | src/hurag_webui/main.py:59-82 | with the startup as written the application never reaches its `yield` |
| App.HasKeyAppend | src/hurag_webui/main.py:406-407 | appending an entry adds exactly its key |
| App.Lookup | src/hurag_webui/main.py:570 | a lookup finds a message exactly when its key is present |
| App.Put | src/hurag_webui/main.py:406-438 | after `d[k] = v`, `k` maps to `v`; an existing key keeps its place (every key stays at its index), a new key goes last, and other keys are unchanged |
| App.PutSame | src/hurag_webui/main.py:406-407 | writing back the stored value changes nothing |
| App.PutPut | src/hurag_webui/main.py:406-407 | of two writes to one key the second wins |
| App.BeginTurn | src/hurag_webui/main.py:314-318 | with no current session the citations and messages are cleared; otherwise nothing changes |
| App.GuestTurnKeepsContiguous | src/hurag_webui/main.py:419-438 | with fresh ids a guest turn appends the query and the reply, numbered after the messages already there |
| App.FirstGuestTurn | src/hurag_webui/main.py:314-438 | the first guest turn stores the query at 0 and the reply at 1 under `guest_session` |
| App.UserTurnSpec | src/hurag_webui/main.py:377-410 | a signed-in turn stores both messages under their ids, records the response's citations exactly when there are some, and keeps an existing session id |
| App.Flip | src/hurag_webui/main.py:585-594 | `1 - x` turns 0 into 1 and 1 into 0 |
| App.FlipTwice | src/hurag_webui/main.py:585-594 | flipping twice restores the flag |
| App.Toggle | src/hurag_webui/main.py:583-598 | an unknown message id raises `TypeError` and a message without the flag raises `KeyError`; otherwise the stored flag is flipped, the flipped value is the one sent, the message's other fields and every other message are unchanged, and the keys keep their order |
| App.ToggleTwice | src/hurag_webui/main.py:583-598 | two clicks restore the stored messages |
| App.ClientStorage.BeginTurnOn | src/hurag_webui/main.py:314-318 | the in-place reset agrees with `BeginTurn` |
| App.ClientStorage.StoreGuestTurn | src/hurag_webui/main.py:419-438 | the in-place guest writes agree with `GuestTurn` |
| App.ClientStorage.StoreUserTurn | src/hurag_webui/main.py:393-410 | the in-place signed-in writes agree with `UserTurn` |
| App.ClientStorage.ToggleFlag | src/hurag_webui/main.py:583-598 | the in-place flag flip agrees with `Toggle` and leaves the session id and citations alone |
| Constants.ModeTablesShareKeys | src/hurag_webui/constants.py:1-15 | the mode names, retrieval modes and descriptions are defined for the same five modes 0 to 4 |
| Constants.RagModesDistinct | src/hurag_webui/constants.py:2-8 | only mode 0 has no retrieval, and modes 1 to 4 name four different retrieval modes |
| Constants.DropsReverseCreates | src/hurag_webui/constants.py:86-132 | the eight scripts are four drops followed by four creates, and the tables are dropped in the reverse of their creation order |
| Constants.ForeignKeysReferenceEarlierTables | src/hurag_webui/constants.py:96-132 | every FOREIGN KEY references a table created earlier in the script list |
| Sql.Dispatch | src/hurag_webui/dbs.py:225-228 | a list of tuples goes to `executemany`; anything else to `execute`, with `()` for no data |
| Sql.Zip | src/hurag_webui/dbs.py:264 | the pairs stop at the shorter list, and pair `i` holds element `i` of each |
| Sql.EmptyTuples | src/hurag_webui/dbs.py:257 | `[()] * n` is `n` empty parameter tuples |
| Sql.RunPairsSpec | src/hurag_webui/dbs.py:263-269 | statements run in order, each dispatched with its own data; the run stops at the first call that raises; a full run sums every row count |
| Sql.ExecutePairs | src/hurag_webui/dbs.py:263-269 | the statement loop leaves the calls, total and failure that `RunPairs` describes |
| Sql.RunPairsFailsIff | src/hurag_webui/dbs.py:263-269 | the statements' run fails exactly when one of its statements raises |
| Sql.FailedRunIsFinal | src/hurag_webui/dbs.py:262-275 | once a statement raised, later statements are never run |
| Sql.FinishSpec | src/hurag_webui/dbs.py:270-275 | success commits once and returns the summed count; any failure, a failing commit included, ends with a rollback |
| Sql.Dml | src/hurag_webui/dbs.py:208-234 | one dispatched call, then a commit and its row count on success, or a rollback and the error |
| Dbs.PoolRegistry.constructor | src/hurag_webui/dbs.py:11 | the registry starts without a pool |
| Dbs.PoolRegistry.GetPool | src/hurag_webui/dbs.py:20-38 | an existing pool is returned unchanged; otherwise the created pool is stored and returned, or the creation error raised |
| Dbs.PoolRegistry.ClosePool | src/hurag_webui/dbs.py:40-46 | no pool: nothing happens; a pool is closed once and forgotten, unless waiting for it raises |
| Dbs.ClosePoolTwice | src/hurag_webui/dbs.py:40-46 | two calls leave no pool and close it at most once |
| Dbs.CursorFor | src/hurag_webui/dbs.py:140-149 | the cursor is a dict cursor exactly when `dict_cursor`, and server-side exactly when `ss_cursor` |
| Dbs.CursorForInjective | src/hurag_webui/dbs.py:140-149 | different flag pairs give different cursor kinds |
| Dbs.WithRdb | src/hurag_webui/dbs.py:135-156 | the wrapped function receives the caller's keyword arguments plus the connection and the cursor under their names; the cursor is closed and the connection released exactly when it returns normally |
| Dbs.Transact | src/hurag_webui/dbs.py:236-276 | the coroutine as written leaves what `TransactAsWritten` describes |
| Dbs.TransactSpec | src/hurag_webui/dbs.py:256-275 | with enough data (or none), success runs every statement with its own data, commits once and returns the summed counts; failure ends with a rollback; it succeeds exactly when no statement raises and the commit does not |
| Dbs.NoneDataUsesEmptyTuples | src/hurag_webui/dbs.py:256-257 | `data=None` runs every statement with an empty tuple |
| Dbs.ShortDataFails | src/hurag_webui/dbs.py:259-264 | as written, fewer data than statements runs nothing, rolls back and raises |
| Dbs.PaddedRunsShortData | src/hurag_webui/dbs.py:245-261 | with the documented padding every statement runs on success, those without data with an empty tuple |
| Dbs.PaddedAgreesWhenDataSuffices | src/hurag_webui/dbs.py:256-275 | where the data suffice the padded and the written versions agree |
| Rss.PoolCache.constructor | src/hurag_webui/dss/rss.py:7 | the cache starts empty |
| Rss.PoolCache.Pool | src/hurag_webui/dss/rss.py:7-18 | the first call builds and caches the pool; later calls return the cached one and build nothing |
| Rss.PoolShared | src/hurag_webui/dss/rss.py:7-18 | two calls share one pool, and at most one pool is built |
| Rss.Transact | src/hurag_webui/dss/rss.py:44-58 | the statement loop leaves what `TransactRun` describes |
| Rss.TransactRunsZippedPrefix | src/hurag_webui/dss/rss.py:49-58 | only the first `min(len(statements), len(data))` statements run, in order; success commits once, failure rolls back |
| Rss.NoneDataFails | src/hurag_webui/dss/rss.py:44-58 | `data=None` runs nothing, rolls back and raises |
| Rss.ScriptTexts | src/hurag_webui/dss/rss.py:60-105 | one statement text per script, in list order |
| Rss.InitRss | src/hurag_webui/dss/rss.py:107-124 | the scripts run in one transaction, and the seed user is inserted only when it committed |
| Rss.InitRssCalls | src/hurag_webui/dss/rss.py:107-124 | a successful run sends the eight scripts with empty tuples, a commit, one `executemany` of exactly the seed user, and a commit |
| Models.Overlay | src/hurag_webui/models/session.py:17-27 | loading from a row keeps the number of fields |
| Models.OverlaySpec | src/hurag_webui/models/session.py:17-27 | positions the row covers take the row's values and the rest keep theirs; a full row leaves nothing of the old values |
| Models.MessageOf | src/hurag_webui/models/session.py:6-15 | the message's fields in declaration order are the given nine values |
| Models.Message.constructor | src/hurag_webui/models/session.py:6-15 | a message holds the given field values |
| Models.Message.FromDbResponse | src/hurag_webui/models/session.py:17-27 | the fields are overwritten from the row in order; a row of nine or more returns the message itself, a shorter one raises `IndexError` after filling what it has |
| Models.MessageLoadedFromRow | src/hurag_webui/models/session.py:17-27 | a full row gives id, session_id, seq_no, role, content, created_ts, likes, dislikes and pair_id from its first nine values |
| Models.Session.constructor | src/hurag_webui/models/session.py:30-34 | a session holds the given field values |
| Models.Session.FromDbResponse | src/hurag_webui/models/session.py:36-41 | as for messages, with four fields |
| Models.User.constructor | src/hurag_webui/models/user.py:5-9 | a user holds the given field values |
| Models.User.FromDbResponse | src/hurag_webui/models/user.py:11-16 | as for messages, with four fields |
| Models.UserLoadDropsDefaults | src/hurag_webui/models/user.py:7-16 | a full row replaces the guest defaults; a user with an id is never the guest |
| SessionService.SessionsQuery | src/hurag_webui/services/session_service.py:41-51 | no query for a missing or empty user id; otherwise the user's id as the one parameter, with `LIMIT n` appended exactly when `n` is positive |
| SessionService.CitationRows | src/hurag_webui/services/session_service.py:124-128 | one row per citation id: the response id, the id and its 1-based position |
| SessionService.UpdatePlan | src/hurag_webui/services/session_service.py:156-192 | the update path makes five statements, six when there are citations |
| SessionService.UpsertNumbering | src/hurag_webui/services/session_service.py:111-217 | the query and the response name each other as pair and share a session; a new session numbers them 0 and 1, an existing one continues after its highest number; only a new session is returned |
| SessionService.EmptySessionStartsAtZero | src/hurag_webui/services/session_service.py:162-163 | with no stored message the next number is 0 |
| SessionService.NewSessionWrites | src/hurag_webui/services/session_service.py:112-129 | a new session writes the session row, the query row, the response row and, only with citations, the citation batch, then commits once |
| SessionService.UpdateWrites | src/hurag_webui/services/session_service.py:151-197 | an update locks the session, reads the last number, writes both messages numbered after it, touches the session, writes the citation batch only with citations, and commits once; a failure ends with a rollback; it succeeds exactly when no statement raises and the commit does not |
| SessionService.UpsertSession | src/hurag_webui/services/session_service.py:57-217 | building the lists with `append` and running them leaves what `Upsert` describes |
| SessionService.GroupSpec | src/hurag_webui/services/session_service.py:278-280 | each query id that has a row maps to its segment ids in row order, and no other key appears |
| SessionService.SegmentsEmpty | src/hurag_webui/services/session_service.py:278-280 | a query id without rows has no segments |
| SessionService.LoadCitationIdsBySession | src/hurag_webui/services/session_service.py:256-282 | an empty session id gives `{}`; otherwise the grouping of the rows |
| SessionService.GenerateSessionTitle | src/hurag_webui/services/session_service.py:285-318 | the title is always stripped, and a stripped query that fits is the title itself |
| SessionService.ShortTitleUnchanged | src/hurag_webui/services/session_service.py:296-297 | a short query without surrounding spaces is its own title |
| SessionService.SearchBatch | src/hurag_webui/services/session_service.py:396-423 | no query for no results; otherwise the session ids twice over, in result order |
| SessionService.PlaceholderLength | src/hurag_webui/services/session_service.py:402 | `n` comma-separated placeholders take `3n - 1` characters |
| CitationModel.IndexFromSpec | src/hurag_webui/models/citation.py:66-68 | the search finds the first occurrence at or after the start, or reports that there is none |
| CitationModel.CollapseNewlines | src/hurag_webui/models/citation.py:78 | collapsing never lengthens the text |
| CitationModel.SelfClosingTags | src/hurag_webui/models/citation.py:66 | the self-closing pass rewrites brackets in place and keeps the length |
| CitationModel.CollapseNewlinesSpec | src/hurag_webui/models/citation.py:78 | the result has no three newlines in a row and the same text between the newlines |
| CitationModel.CollapseNewlinesKeeps | src/hurag_webui/models/citation.py:78 | text without a run of three newlines is unchanged |
| CitationModel.CollapseNewlinesIdempotent | src/hurag_webui/models/citation.py:78 | collapsing twice is collapsing once |
| CitationModel.Newlines | src/hurag_webui/models/citation.py:78 | a run of `k` newlines |
| CitationModel.CollapseRun | src/hurag_webui/models/citation.py:78 | a run of `k` newlines becomes two when `k` is three or more, and is kept otherwise |
| CitationModel.CollapseAppend | src/hurag_webui/models/citation.py:78 | text split after a character other than a newline collapses as its two halves do |
| CitationModel.CollapseAppendBefore | src/hurag_webui/models/citation.py:78 | text split before a character other than a newline collapses as its two halves do |
| CitationModel.CollapseNewlinesRun | src/hurag_webui/models/citation.py:78 | each maximal run of `k` newlines becomes `min(k, 2)` newlines and the text around it is collapsed on its own |
| CitationModel.SelfClosingTag | src/hurag_webui/models/citation.py:66 | `<name attrs/>` becomes `[name attrs/]`, and the scan resumes after it |
| CitationModel.PairedTag | src/hurag_webui/models/citation.py:67-74 | `<t a>x</t>` becomes `[t a]`, the converted body, `[/t]`, and the scan resumes after it |
| CitationModel.NoTagsUnchanged | src/hurag_webui/models/citation.py:65-75 | text without `<` is unchanged by both tag passes |
| CitationModel.HeadingLine | src/hurag_webui/models/citation.py:82-87 | a heading line loses its `#`s and the spaces after them, and its text is underlined |
| CitationModel.NoHeadingsUnchanged | src/hurag_webui/models/citation.py:82-87 | text without `#` is unchanged |
| CitationModel.MathSpan | src/hurag_webui/models/citation.py:89-90 | an inline formula ends at the next `$` after a non-empty body |
| CitationModel.SpaceBeforeMathSpan | src/hurag_webui/models/citation.py:89 | a letter, digit or CJK character directly before a formula gets a space |
| CitationModel.SpaceAfterMathSpan | src/hurag_webui/models/citation.py:90 | a letter, digit or CJK character directly after a formula gets a space |
| CitationModel.NoMathUnchanged | src/hurag_webui/models/citation.py:89-90 | text without `$` is unchanged by both spacing passes |
| CitationModel.SanitizeMarkdown | src/hurag_webui/models/citation.py:49-92 | the sanitised text has no leading or trailing whitespace |
| CitationModel.PlainTextOnlyStripped | src/hurag_webui/models/citation.py:49-92 | plain text without newline runs, tags, headings or `$` is only stripped |
| CitationModel.TextOf | src/hurag_webui/models/citation.py:30-33 | a citation without content raises; otherwise its text is stripped |
| CitationModel.Brief | src/hurag_webui/models/citation.py:35-41 | a citation without content raises; otherwise its brief is stripped |
| CitationModel.BriefOfShortIsText | src/hurag_webui/models/citation.py:35-41 | content of at most 100 characters has its text as brief |
| CitationModel.BriefSeesPrefixOnly | src/hurag_webui/models/citation.py:38-39 | two long contents with the same first 100 characters have the same brief |
| CitationModel.Citation.constructor | src/hurag_webui/models/citation.py:11-15 | a new citation has every field unset |
| CitationModel.Citation.FromKnowledge | src/hurag_webui/models/citation.py:23-28 | the segment id, document id, title and content are copied and the object itself is returned |
| CitationService.IdSet | src/hurag_webui/services/citation_service.py:20 | `set(citation_ids)` holds exactly the listed ids |
| CitationService.Partition | src/hurag_webui/services/citation_service.py:21-22 | the cached and uncached ids split the requested ids with no overlap, cached meaning present in the cache |
| CitationService.Entries | src/hurag_webui/services/citation_service.py:24-26 | one cached citation per cached id, in visiting order |
| CitationService.FillSpec | src/hurag_webui/services/citation_service.py:42-46 | every fetched citation is stored under its id, the last one winning; nothing else changes and nothing is removed |
| CitationService.CitationCache.constructor | src/hurag_webui/services/citation_service.py:8 | the cache holds the given entries |
| CitationService.ValidatedSpec | src/hurag_webui/services/citation_service.py:42-43 | the records are the validated items of a prefix: all of them when none fails, else up to the first failure, whose error is returned |
| CitationService.AsWrittenRaisesOnFetchedItem | src/hurag_webui/services/citation_service.py:41-46 | a request answered with any item raises `AttributeError` as written, where the corrected loader returns one citation per cached id and per item and caches every item |
| CitationService.CachedPart | src/hurag_webui/services/citation_service.py:20-26 | the cached ids are visited once each and rebuilt from their entries in that order; the uncached ids are the rest |
| CitationService.ListIds | src/hurag_webui/services/citation_service.py:35 | `list(uncached_ids)` names each uncached id once |
| CitationService.AppendFetched | src/hurag_webui/services/citation_service.py:42-46 | the corrected fetch loop appends and caches the citation of each item that validates, in order, and raises the first validation error |
| CitationService.LoadCitationsByIds | src/hurag_webui/services/citation_service.py:6-48 | every requested id is served from the cache or requested once; no request when all are cached; a failed request raises and leaves the cache; otherwise the cached citations then the fetched ones, and the cache holds every fetched citation; an item that does not validate raises after the earlier ones were cached |
| CitationService.LoadCitationsByIdsAsWritten | src/hurag_webui/services/citation_service.py:6-48 | as written: the same request, but any fetched item raises `AttributeError` before anything is appended or cached; the cache is never written |
| CitationViewer.StrLeRefl | src/hurag_webui/viewers/citation_viewer.py:46 | the string order used by the sort is reflexive |
| CitationViewer.StrLeTotal | src/hurag_webui/viewers/citation_viewer.py:46 | the string order is total |
| CitationViewer.StrLeTrans | src/hurag_webui/viewers/citation_viewer.py:46 | the string order is transitive |
| CitationViewer.Insert | src/hurag_webui/viewers/citation_viewer.py:46 | inserting adds exactly the new citation |
| CitationViewer.InsertSorted | src/hurag_webui/viewers/citation_viewer.py:46 | inserting into a sorted list keeps it sorted |
| CitationViewer.InsertStable | src/hurag_webui/viewers/citation_viewer.py:46 | inserting goes after every citation with an equal key |
| CitationViewer.SortByKeySpec | src/hurag_webui/viewers/citation_viewer.py:44-46 | the sort by `doc_id_id` is ordered, a permutation, and stable: equal keys keep their order |
| CitationViewer.IdToCitationKeys | src/hurag_webui/viewers/citation_viewer.py:49 | the dict has a key for exactly the ids of the loaded citations |
| CitationViewer.IdToCitationLastWins | src/hurag_webui/viewers/citation_viewer.py:49 | of citations sharing an id, the last one is kept |
| CitationViewer.PresentIds | src/hurag_webui/viewers/citation_viewer.py:50 | the ids kept are exactly those listed that have a citation |
| CitationViewer.ReorderSpec | src/hurag_webui/viewers/citation_viewer.py:48-50 | one citation per id that has one, in id order, repeats included |
| CitationViewer.AllPresentFollowsIds | src/hurag_webui/viewers/citation_viewer.py:48-50 | when every id has a citation the list follows the ids one to one |
| CitationViewer.Labels | src/hurag_webui/viewers/citation_viewer.py:53-63 | one label per card |
| CitationViewer.LabelsDistinct | src/hurag_webui/viewers/citation_viewer.py:53-63 | cards at different positions get different labels, whatever their titles |
| CitationViewer.ShowCitations | src/hurag_webui/viewers/citation_viewer.py:27-63 | corrected to call the loader without `await`: no ids means nothing is loaded and the cache is untouched; otherwise the loader's outcome, and on success exactly the loader's citations, sorted (set of ids) or reordered (list) and labelled in that order |
| CitationViewer.ShowCitationsAsWritten | src/hurag_webui/viewers/citation_viewer.py:27-43 | as written: for any ids no card is labelled; the call raises the loader's error, or `TypeError` from awaiting the list it returned |
| Prompts.SelectedSpec | src/hurag_webui/prompts.py:59-61 | a positive limit keeps the first `kn_limit` segments, a negative one drops that many from the end, and no limit (or 0) keeps all, always as a prefix |
| Prompts.LargeLimitKeepsAll | src/hurag_webui/prompts.py:59-61 | a limit at least the list's length gives the same prompt as no limit |
| Prompts.Block | src/hurag_webui/prompts.py:62-87 | a segment renders exactly when it has content, a publication date and a validity start date |
| Prompts.BlocksOk | src/hurag_webui/prompts.py:58-87 | the loop succeeds exactly when every selected segment renders |
| Prompts.BlocksValues | src/hurag_webui/prompts.py:58-87 | on success, block `i` is the rendering of segment `i` |
| Prompts.BlocksFirstError | src/hurag_webui/prompts.py:58-87 | on failure, the error is the first failing segment's |
| Prompts.BlocksErrSticks | src/hurag_webui/prompts.py:58-87 | a failure stops the loop: later segments do not change the error |
| Prompts.EmptyKnowledge | src/hurag_webui/prompts.py:89-92 | with no segment the prompt is the template around an empty segment list and the query |
| Prompts.BlockNumbered | src/hurag_webui/prompts.py:75 | block `idx` starts with the header numbered `idx + 1` |
| Prompts.HeadersDistinct | src/hurag_webui/prompts.py:75 | blocks with different numbers differ |
| Prompts.MissingFieldsDefault | src/hurag_webui/prompts.py:69-85 | a missing or empty number, predecessor or parent renders as `无`, and a missing repeal date as `未废止` |
| Prompts.ContentStripped | src/hurag_webui/prompts.py:62 | only the stripped content is shown |
| Prompts.CreateRagPrompt | src/hurag_webui/prompts.py:43-93 | the loop builds the prompt `RagPrompt` describes |
| Backend.HistoryOrEmpty | src/hurag_webui/backend.py:21 | `history or []`: a given history is sent, a missing one as `[]` |
| Backend.NoneHistorySentEmpty | src/hurag_webui/backend.py:21 | a missing and an empty history send the same request |
| Backend.StreamResponse | src/hurag_webui/backend.py:36-46 | the line loop yields what `ChatStream` describes |
| Backend.SkippedLineIgnored | src/hurag_webui/backend.py:37-46 | a line that is not a `data: ` line, or whose payload is not JSON, makes no difference wherever it occurs |
| Backend.DoneEndsStream | src/hurag_webui/backend.py:41-42 | nothing after `[DONE]` is read, not even a transport error |
| Backend.DeltasInOrder | src/hurag_webui/backend.py:37-44 | lines carrying deltas yield them one per line, in order, and the stream ends as the body does |
| Backend.MissingDeltaRaises | src/hurag_webui/backend.py:44 | an object without `delta` raises `KeyError` after the earlier deltas were yielded |
| Backend.RagRetrieve | src/hurag_webui/backend.py:57-95 | no mode: no request and `[]`; otherwise one request with `history or []`, and its data, or `[]` on any failure |
| ChatViewer.CtxLimits | src/hurag_webui/viewers/chat_viewer.py:15-19 | the table has a row exactly for `tiny`, `medium` and `large`; any other size raises `KeyError` |
| ChatViewer.WindowSpec | src/hurag_webui/viewers/chat_viewer.py:15-19 | `tiny` sends the last two history entries and at most four segments, `medium` the last ten and at most five, `large` everything |
| ChatViewer.ContentTotalErrSticks | src/hurag_webui/viewers/chat_viewer.py:213-214 | a missing `content` stops the count |
| ChatViewer.ContentTotalSpec | src/hurag_webui/viewers/chat_viewer.py:213-214 | the count succeeds exactly when every entry has content, and covers each entry's length |
| ChatViewer.ContextLength | src/hurag_webui/viewers/chat_viewer.py:199-224 | the loop computes what `ContextLengthOf` describes |
| ChatViewer.ContextLengthBounds | src/hurag_webui/viewers/chat_viewer.py:209-218 | the length is at least the prompt's; an empty history adds nothing; a `None` history raises `TypeError` |
| ChatViewer.OlderHistoryIgnored | src/hurag_webui/viewers/chat_viewer.py:211-214 | for `tiny` and `medium`, history older than the window does not change the length |
| ChatViewer.ConcatAppend | src/hurag_webui/viewers/chat_viewer.py:181-182 | joining the chunks respects any split of the stream |
| ChatViewer.ContentSpec | src/hurag_webui/viewers/chat_viewer.py:181-192 | the reply is the chunks in arrival order, then the overflow marker after a protocol error, the connection marker after any other error, nothing after a normal end |
| ChatViewer.UnknownCtxSizeRaises | src/hurag_webui/viewers/chat_viewer.py:206-211 | an unknown size raises `KeyError` before anything is sent |
| ChatViewer.PromptChoice | src/hurag_webui/viewers/chat_viewer.py:149-158 | without a mode the message is the prompt; with one, the RAG prompt limited by the size's segment count |
| ChatViewer.NoneHistoryRaises | src/hurag_webui/viewers/chat_viewer.py:209-218 | a `None` history raises from the length accounting, so no reply is produced |
| ChatViewer.MakePrompt | src/hurag_webui/viewers/chat_viewer.py:148-158 | the prompt step leaves what `PromptFor` describes |
| ChatViewer.Converse | src/hurag_webui/viewers/chat_viewer.py:169-192 | the streaming loop leaves the reply `Content` describes for the windowed request |
| ChatViewer.ChatWithBackend | src/hurag_webui/viewers/chat_viewer.py:115-195 | the whole call, with `chat` bound, returns what `ChatReply` describes |
| ChatViewer.ChatUnboundAlwaysDisconnected | src/hurag_webui/viewers/chat_viewer.py:143-192 | as written, every reply that gets past the prompt is the connection marker alone; the errors before it are the same as with `chat` bound |
| ChatViewer.ChatUnboundDropsReply | src/hurag_webui/viewers/chat_viewer.py:143-192 | a service streaming one delta gives that delta with `chat` bound, and only the connection marker as written |
| ChatViewer.UpperCaseCtxSizeUnknown | src/hurag_webui/__init__.py:38-39 | `TINY` passes the configuration check unchanged and then has no row in the size table |
| ChatViewer.LoweredCtxSizeKnown | src/hurag_webui/__init__.py:38-39 | stored in lower case, every accepted size has a row, and any letter case selects its lower-case row |
| Tokenizer.Cleanup | src/hurag_webui/fts/tokenizer.py:6-12 | the cleaned text has no surrounding whitespace and no upper-case ASCII letter; with the ASCII-only `Text.Lower` it is no longer than the input |
| Tokenizer.CleanupIdempotent | src/hurag_webui/fts/tokenizer.py:6-12 | cleaning twice is cleaning once, so indexing and querying agree |
| Tokenizer.Slice | src/hurag_webui/fts/tokenizer.py:36 | Python slicing with non-negative bounds, clamped to the list |
| Tokenizer.ParallelTokenize | src/hurag_webui/fts/tokenizer.py:39-75 | the chunk loop leaves what `ParallelTokenized` describes |
| Tokenizer.ChunkCountSpec | src/hurag_webui/fts/tokenizer.py:65 | the chunk count is the ceiling of the corpus length over the chunk size |
| Tokenizer.ChunkBefore | src/hurag_webui/fts/tokenizer.py:59-66 | a chunk start lies inside the corpus exactly when its number is below the count |
| Tokenizer.TokenizeAppend | src/hurag_webui/fts/tokenizer.py:28-37 | tokenising two parts and joining is tokenising the whole |
| Tokenizer.ChunkedPrefix | src/hurag_webui/fts/tokenizer.py:59-73 | the first `k` chunks joined are the tokenisation of the first `k * size` texts |
| Tokenizer.ChunksCoverCorpus | src/hurag_webui/fts/tokenizer.py:59-73 | all chunks joined are the tokenisation of the whole corpus |
| Tokenizer.ChunkBoundaries | src/hurag_webui/fts/tokenizer.py:31-61 | each chunk holds `size` texts from its start, except the last, which holds the rest |
| Tokenizer.ParallelTokenizeAligns | src/hurag_webui/fts/tokenizer.py:39-75 | an empty corpus gives `None`; a positive chunk size gives the same tokens as `tokenize` |
| Tokenizer.ProcessCountBounds | src/hurag_webui/fts/tokenizer.py:63-66 | at least one process, at most one per chunk and at most the CPUs less one (but one) |
| Tokenizer.NegativeChunkSizeRaises | src/hurag_webui/fts/tokenizer.py:54-68 | a negative chunk size passes the size test and then leaves the pool with no process, which raises |
| Text.SpaceEndSpec | src/hurag_webui/fts/tokenizer.py:12 | the scan stops at the first non-space character |
| Text.SpaceStartSpec | src/hurag_webui/fts/tokenizer.py:12 | the backward scan stops after the last non-space character |
| Text.Strip | src/hurag_webui/prompts.py:62 | `str.strip()` leaves no surrounding whitespace |
| Text.StripSpec | src/hurag_webui/prompts.py:62 | the stripped text is the input between its first and last non-space characters |
| Text.StripOfStripped | src/hurag_webui/prompts.py:62 | stripping a stripped text changes nothing |
| Text.StripIdempotent | src/hurag_webui/prompts.py:62 | stripping twice is stripping once |
| Text.Lower | src/hurag_webui/fts/tokenizer.py:12 | lower-casing maps each character through `LowerChar`, which lower-cases ASCII `A`-`Z` and keeps every other character, so the length is kept |
| Text.LowerIdempotent | src/hurag_webui/fts/tokenizer.py:12 | lower-casing twice is lower-casing once |
| Text.Upper | src/hurag_webui/main.py:45 | upper-casing maps each character through `UpperChar`, which upper-cases ASCII `a`-`z` and keeps every other character, so the length is kept |
| Text.Join | src/hurag_webui/prompts.py:90 | joining nothing gives the empty string and joining one part gives that part |
| Text.NatToString | src/hurag_webui/prompts.py:75 | a number prints as digits, with no leading zero |
| Text.NatToStringInjective | src/hurag_webui/prompts.py:75 | different numbers print differently |
| Text.SliceIndex | src/hurag_webui/viewers/chat_viewer.py:176 | a slice bound is clamped to the list, and a negative bound counts from the end |
| Text.Take | src/hurag_webui/prompts.py:60 | `xs[:k]` is a prefix of `xs`: the first `k` elements for `k >= 0`, all but the last `-k` otherwise, never more than there are |
| Text.Drop | src/hurag_webui/viewers/chat_viewer.py:176 | `xs[k:]` is a suffix of `xs`: without the first `k` elements for `k >= 0`, the last `-k` otherwise |
| Text.TakeDrop | src/hurag_webui/viewers/chat_viewer.py:176 | `xs[:k] + xs[k:] == xs` for every `k` |
| Text.DropNegativeKeepsLast | src/hurag_webui/viewers/chat_viewer.py:176 | `xs[-k:]` keeps the last `k` elements, or all when there are fewer |

## Left out

- User interface: NiceGUI pages, cards, spinners, notifications, markdown widgets and scrolling are not modelled; only the values they are given are.
- Network, database and model services: HTTP answers, database replies, `json.loads`, the YAML loader, `create_client`, `generate_id`, `uuid7`, `datetime.now` and `cpu_count` are parameters, so their own behaviour is not modelled.
- Concurrency: `asyncio` scheduling, the lock in `get_pool`, and the `multiprocessing` pool of `parallel_tokenize` are not modelled; each operation runs to completion, and the pool is modelled by the chunks it is handed and the order in which their results are joined.
- Logging: `logger()` calls and the debug output of `_context_length` are not modelled, except that `len(history)` in that output raises for a `None` history.
- Floating point: relevance scores and temperatures are carried as they are; a score is kept as its `{score:.4f}` text, which is not computed.
- Dates: dates and timestamps are opaque values or their `%Y-%m-%d` text; `strftime` is not modelled.
- Text.Lower: lower-cases ASCII `A`-`Z` only; Python's `str.lower` also maps other alphabets and can lengthen the text (`'İ'.lower()` has two characters), so `Tokenizer.Cleanup`'s length bound holds only for the model.
- Text.Upper: upper-cases ASCII `a`-`z` only; Python's `str.upper` also maps other alphabets and can lengthen the text (`ß` becomes `SS`), so `App.EnvLabelShape`'s character-by-character mapping holds only for ASCII labels.
- CitationModel.IsWord: the regular expression class `\w` is approximated by ASCII letters, digits, `_` and the CJK ranges of `_CJK`; other Unicode letters are not word characters here.
- Backend: the non-streaming branch of `chat` (`stream=False`) is not modelled; `chat_with_backend` always streams. Deltas are strings; a non-string `delta` value is not modelled.
- ChatViewer.Converse: the stream is modelled as the complete list of its chunks followed by how it ended; the reply's incremental display is not.
- ChatViewer.ChatWithBackend: the timestamp `datetime.now()` returned beside the reply is not modelled.
- Kernel.NewTree: only string keys are modelled; a YAML mapping with a non-string key, on which `setattr` raises `TypeError`, is not.
- SQL texts: the DDL scripts of `Constants.ScriptText` are abbreviated to their table names and foreign keys, and `Rss.InsertUser` and the `SessionService` statements have their line breaks and indentation collapsed to single spaces.
- Backend and ChatViewer: the service URL `conf().api.url` is the parameter `apiUrl`, so the `AttributeError` raised for a configuration without `api.url` is not modelled.
- Models: pydantic's `model_dump`/`model_validate` are identities on the record, and the `compare=False` equality of `Message`, `Session` and `User` (by `id` only) is not modelled.
- Config: `dict_to_namespace` comes from the `hurag` package, which is not part of this model; the model assumes it behaves like `kernel.py`'s conversion of a document into an attribute tree (`Kernel.Tree`).
- Config.LoadConfig: the `RuntimeError` message is `Config file not exists or invalid` without the `: {e}` text of the wrapped exception.
- CitationService: `response.json()` is modelled as a list of JSON values; a body that is not a list is not modelled. `Knowledge.model_validate`, used by the corrected loader, belongs to the `hurag` package and is the parameter `validate`.
- CitationService.LoadCitationsByIds: the iteration order of a Python set is not determined by the source; it is the out-parameter `order` (and the order of the requested ids is left free).
- Dbs.Transact: `data` is a value; as written, `data.extend(...)` first pads the caller's own list in place with `()` items, and that change to the caller's list is not modelled.
- Dbs: the database is a function from a call to its reply, so it answers the same call the same way each time; state kept between calls is not modelled.
- Dbs: `query` and `query_iter`, which only fetch rows, are not modelled; in `with_rdb` the wrapped function's own database calls are its result, not separate steps.
- The rest of the repository (`events.py`, `init.py`, `init_cli.py`, `fts/retriever.py`, `services/user_service.py` and the other viewers) is not part of this model.

## Findings

| source | as written | input that shows it | evidently intended | confidence | as-written member | corrected member |
|---|---|---|---|---|---|---|
| src/hurag_webui/main.py:59 | `await chat_client.startup(...)` awaits the `None` that the synchronous `startup` returns | all three settings present and `create_client` succeeding | call `startup` without `await`, so the application starts serving | not executed | App.AwaitNoneDefect | App.StartupAppSpec |
| src/hurag_webui/dbs.py:261 | `data = data.extend(...)` stores `None`, so `data[:ns]` raises and the transaction rolls back | two statements with one data tuple | pad the missing data with empty tuples, as the docstring says | not executed | Dbs.ShortDataFails | Dbs.PaddedRunsShortData |
| src/hurag_webui/viewers/chat_viewer.py:143 | the import of `chat` is commented out, so calling it raises `NameError`, which becomes the connection-error marker | size `large`, no mode, message `hi`, a service streaming one delta | import `chat` from the backend module, so the reply is the streamed text | not executed | ChatViewer.ChatUnboundAlwaysDisconnected | ChatViewer.ChatUnboundDropsReply |
| src/hurag_webui/__init__.py:38 | the size is accepted when its lower-case form is known, but stored unchanged, and the size table has only lower-case keys | `ctx_size: TINY` | store the lower-case spelling | not executed | ChatViewer.UpperCaseCtxSizeUnknown | ChatViewer.LoweredCtxSizeKnown |
| src/hurag_webui/services/citation_service.py:43 | `from_knowledge` reads `knowledge.segment_id` from the dicts `response.json()` returns, which raises `AttributeError` | one uncached id and a service answering `[{"segment_id": "s1"}]` | validate each item as a `Knowledge` record first, so the citation is returned and cached | not executed | CitationService.AsWrittenRaisesOnFetchedItem | CitationService.LoadCitationsByIds |
| src/hurag_webui/viewers/citation_viewer.py:37 | `await load_citations_by_ids(...)` awaits the list the synchronous loader returns, which raises `TypeError`, so no card is ever shown | a list of one id whose citation is cached | call the loader without `await` | not executed | CitationViewer.ShowCitationsAsWritten | CitationViewer.ShowCitations |
