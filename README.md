# OpenMemory API core, modelled in Dafny

OpenMemory is the memory service built around mem0. An application or an MCP client sends
it text; the mem0 engine extracts memories from the text and stores them in a vector store
(optionally also a Neo4j graph); the API keeps its own table of memories, their state
history, their categories and the app-level access rules; and a configuration store keeps
the LLM, embedder, vector-store and graph-store settings that the engine is built from.

This project models the logic of that service that decides things, one Dafny module per
source file, and proves what the code promises about it:

- `DualWrite` (`neo4j_dual_write_patch.py`): the classifier that routes a Cypher query as a
  write or a read by its leading clause, the decoding of the graph proxy's HTTP reply, the
  counter table of the patched `query` (a `Stats` class) and the guard that makes patching
  idempotent (a `GraphClass` class).
- `Memories` (`routers/memories.py`): state changes with their history records, the
  handlers of the ADD/UPDATE/DELETE/NONE events that mem0 answers with, the loop that sorts
  those results into created/updated/deleted/skipped and commits once, the evaluation of
  app-level access rules, the branch precedence of pause requests, and the validation of the
  sort order of memory listings. The database session is a `MemoryDb` class holding the
  session's view of the tables and the committed tables.
- `Models` (`models.py`): the four memory states and their stored values, and the
  get-or-create and link-if-absent loop of `categorize_memory` over a `CategoryDb` class.
- `ConfigRouter` (`routers/config.py`): the default configuration built from the
  environment, the merge of a stored configuration with the defaults, the upsert of a
  configuration row, and every section handler, over a `ConfigDb` class.
- `MemoryClient` (`utils/memory.py`): the recursive `env:` reference substitution, the
  Ollama URL fix-up, the vector-store provider priority chain and its builders, the default
  configuration, the overlay of the stored configuration, and the client cache (a
  `ClientCache` class) that rebuilds only on a changed configuration hash.
- `TencentVectorDb` (`mem0/vector_stores/tencent_vectordb.py`): the filter expression
  builder, the metric lookup of the constructor and of `create_col`, the documents `insert`
  builds, the precondition and document of `update`, and the payloads `search`, `get` and
  `list` extract.
- `TencentVectorDbConfig` (`mem0/configs/vector_stores/tencent_vectordb.py`): the declared
  fields, their defaults and the validator that refuses any other field.
- `Categorization` (`utils/categorization.py`): base-URL normalisation and the provider
  defaults, the settings of the categorisation client, the parsing and normalisation of the
  LLM's category list, and the guard that skips the LLM call on blank memory text.
- `EmbedderTimeout` (`utils/embedder_timeout_patch.py`): the precedence chains of the
  embedder's timeout, API key and base URL, and the Ollama URL normaliser.
- `LoggingConfig` (`logging_config.py`): `parse_size` of the log-rotation size.
- `Database` (`database.py`): the validation of `DATABASE_URL` and the choice of the engine
  options.

Shared helper modules: `Wrappers` (Option/Result), `Strings` (Python `strip`, `split`,
`upper`/`lower` on ASCII, `startswith`/`endswith`, `replace`), `Numerals` (Python `int()` of a
string and `str()` of an int), `Json` (the JSON values passed around, with dicts as maps) and
`Environment` (the process environment as a map; a missing key is an unset variable).

Clocks, the network, the LLM, the mem0 engine, the vector-store SDK and the docker-host probe
are parameters: the current time is an `int` argument, the proxy's HTTP reply is a
`Transport` value, the engine's answer is a sequence of `EngineResult`s, the LLM reply is a
`Reply`, the classifier's category names are an argument, the SDK's returned documents are
arguments, and the docker host and the configuration hash function are arguments.

The graph proxy service itself is not part of these files: only its client side (the
classifier, the decoding of its replies and the counters) is modelled. The Tencent store's timeout defaults to 30 in its configuration
class but to 60 in the memory client that fills it; both defaults are modelled where they
apply.

## Model

| member | source | states |
|---|---|---|
| DualWrite.LoadSettings | openmemory/api/app/utils/neo4j_dual_write_patch.py:36-39 | dual writing is on exactly when the variable, lower-cased, is "true" (on when unset); the proxy URL defaults to http://localhost:8090; the timeout is the variable read by `int()` or 60, and a non-numeric timeout is the load error |
| DualWrite.DefaultTimeoutParses | openmemory/api/app/utils/neo4j_dual_write_patch.py:39 | the default timeout text "60" reads as 60 |
| DualWrite.MatchesKeyword | openmemory/api/app/utils/neo4j_dual_write_patch.py:88-96 | the keyword search with early return is true exactly when some keyword of the list leads the text and is followed by the end or a whitespace character |
| DualWrite.EmptyIsNotWrite | openmemory/api/app/utils/neo4j_dual_write_patch.py:81-82 | no keyword leads the empty text |
| DualWrite.ShouldDualWrite | openmemory/api/app/utils/neo4j_dual_write_patch.py:63-96 | false whenever dual writing is disabled; otherwise true exactly when the whitespace-normalised, upper-cased query is led by CREATE, MERGE, SET, DELETE, DETACH DELETE or REMOVE as a whole word; a blank query is not a write |
| DualWrite.MatchTextIsNotWrite | openmemory/api/app/utils/neo4j_dual_write_patch.py:68-94 | text whose first word is MATCH is led by no write keyword |
| DualWrite.MatchIsNeverWrite | openmemory/api/app/utils/neo4j_dual_write_patch.py:68-94 | a query whose leading clause is MATCH is a read whatever clauses follow, e.g. a later SET |
| DualWrite.SettingsTextIsNotWrite | openmemory/api/app/utils/neo4j_dual_write_patch.py:90-94 | "SETTINGS…" is not led by the keyword SET, which must end at a space or at the end |
| DualWrite.SettingsIsNotWrite | openmemory/api/app/utils/neo4j_dual_write_patch.py:90-94 | a query starting with the word SETTINGS is a read |
| DualWrite.CreatedTextIsNotWrite | openmemory/api/app/utils/neo4j_dual_write_patch.py:90-94 | "CREATED…" is not led by the keyword CREATE |
| DualWrite.CreatedIsNotWrite | openmemory/api/app/utils/neo4j_dual_write_patch.py:90-94 | a query starting with the word CREATED is a read |
| DualWrite.NormalizeWords | openmemory/api/app/utils/neo4j_dual_write_patch.py:80 | the pieces that splitting the query yields, which normalisation joins by single spaces, are non-empty and contain no whitespace |
| DualWrite.NormalizeIdempotent | openmemory/api/app/utils/neo4j_dual_write_patch.py:80 | normalising twice is normalising once |
| DualWrite.WhitespaceInsensitive | openmemory/api/app/utils/neo4j_dual_write_patch.py:80-84 | the classification ignores the layout of whitespace |
| DualWrite.NormalizeMap | openmemory/api/app/utils/neo4j_dual_write_patch.py:80-84 | a character map that keeps whitespace and non-whitespace apart commutes with the normalisation |
| DualWrite.CaseInsensitive | openmemory/api/app/utils/neo4j_dual_write_patch.py:84 | lower- or upper-casing a query does not change its classification |
| DualWrite.DecodeResponse | openmemory/api/app/utils/neo4j_dual_write_patch.py:110-142 | a reply gives rows exactly when the status is 200 and the JSON body's "success" is truthy; then the rows are its "result", `[]` when absent; a non-200 status, a false success and every exception give `None` |
| DualWrite.Bump | openmemory/api/app/utils/neo4j_dual_write_patch.py:57-60 | one counter rises by the increment, a missing one counting from 0, and no other counter changes |
| DualWrite.TallyPreservesBalance | openmemory/api/app/utils/neo4j_dual_write_patch.py:172-198 | a call raises its kind's total and exactly one of its kind's success or error counters by one, no other counter, and keeps every total equal to its successes plus errors |
| DualWrite.Stats.constructor | openmemory/api/app/utils/neo4j_dual_write_patch.py:43-50 | the six counters start at 0, balanced |
| DualWrite.Stats.Update | openmemory/api/app/utils/neo4j_dual_write_patch.py:57-60 | the counter table becomes its `Bump` |
| DualWrite.Stats.Snapshot | openmemory/api/app/utils/neo4j_dual_write_patch.py:237-240 | returns a copy equal to the counter table and changes nothing |
| DualWrite.Query | openmemory/api/app/utils/neo4j_dual_write_patch.py:156-202 | the patched query counts the call by the classifier's verdict, returns the decoded rows (an empty list included) and counts a success, or counts an error and raises naming the proxy URL when the reply decodes to `None`; the counters stay balanced |
| DualWrite.GraphClass.constructor | openmemory/api/app/utils/neo4j_dual_write_patch.py:207-217 | an unpatched class: no saved original, no wrapper |
| DualWrite.GraphClass.Patch | openmemory/api/app/utils/neo4j_dual_write_patch.py:215-224 | the first patch saves the original and wraps it once; any later patch changes nothing |
| Models.MemoryState.Value | openmemory/api/app/models.py:30-34 | each of the four states has its lower-case stored value |
| Models.StateFromValue | openmemory/api/app/models.py:30-34 | a value names a state exactly when it is one of the four stored values, and then the state whose value it is |
| Models.StateValueRoundTrip | openmemory/api/app/models.py:30-34 | every state round-trips through its stored value |
| Models.StateValuesDistinct | openmemory/api/app/models.py:30-34 | distinct states have distinct values |
| Models.AddCategory | openmemory/api/app/models.py:254-280 | one iteration reuses the category of that name or creates it with a fresh id and the automatic description, and links it to the memory unless linked |
| Models.AddCategoryValid | openmemory/api/app/models.py:254-280 | one iteration keeps ids unique and below the next fresh id, and every link pointing at a stored category |
| Models.AddCategoriesSnoc | openmemory/api/app/models.py:254 | the loop over names followed by one more name is one more iteration |
| Models.AddCategoriesKeys | openmemory/api/app/models.py:254-264 | afterwards the category names are the old ones plus the listed names; existing categories keep their rows, so none is duplicated |
| Models.AddCategoriesLinks | openmemory/api/app/models.py:266-280 | afterwards every listed name's category is linked to the memory, and the only new links are those |
| Models.AddCategoriesValid | openmemory/api/app/models.py:133-163 | the loop keeps ids unique and every link pointing at a stored category |
| Models.AddCategoriesIdempotent | openmemory/api/app/models.py:266-280 | running the categorisation again with the same names changes nothing |
| Models.AlreadyPresent | openmemory/api/app/models.py:255-274 | when every name already has a category linked to the memory, the loop changes nothing |
| Models.CategoryDb.constructor | openmemory/api/app/models.py:128-163 | empty, valid category tables |
| Models.CategoryDb.Categorize | openmemory/api/app/models.py:247-287 | with the classifier's names, the tables become the loop's result and are committed; when the classifier raised, the tables are rolled back to what they were |
| Memories.FindMemory | openmemory/api/app/routers/memories.py:36-40 | the row with that id whatever its state, or 404 "Memory not found" exactly when there is none |
| Memories.UpdateState | openmemory/api/app/routers/memories.py:43-63 | 404 exactly for an unknown id; otherwise the row gets the new state, its archive time moves only for archived and its delete time only for deleted, no other field or row changes, and exactly one history record (old state, new state, actor) is appended |
| Memories.UpdateStateTracked | openmemory/api/app/routers/memories.py:43-63 | a state change keeps every memory's state equal to the new state of its last history record |
| Memories.TrackedAfterLoggedChange | openmemory/api/app/routers/memories.py:54-61 | overwriting a row and logging its new state keeps every memory tracked |
| Memories.UpdateAllFailureSticks | openmemory/api/app/routers/memories.py:620-621 | once one id of a batch is a 404, the outcome is the same however many ids follow |
| Memories.UpdateAllEffect | openmemory/api/app/routers/memories.py:620-621 | a batch of state changes succeeds exactly when every id names a memory (else the 404); then every listed memory has the new state, no row is added or removed, and the history grew by one record per id |
| Memories.UpdateAllTracked | openmemory/api/app/routers/memories.py:620-621 | a batch of state changes keeps every memory tracked |
| Memories.HandlerFor | openmemory/api/app/routers/memories.py:136-141 | an event name has a handler exactly when it is ADD, UPDATE, DELETE or NONE, and it is that event's handler |
| Memories.WriteEventEffect | openmemory/api/app/routers/memories.py:67-110 | ADD and UPDATE with content leave the memory active with that content (an existing row keeps its other fields, a new row takes the request's user, app and metadata), change no other row, log active→active, and report "updated" only for UPDATE of an existing memory, else "created" |
| Memories.WriteEventWithoutContent | openmemory/api/app/routers/memories.py:67-83 | without a `memory` field both handlers raise with no history record; an existing row has already been set active, a new row is not added |
| Memories.DeleteEventEffect | openmemory/api/app/routers/memories.py:113-127 | DELETE of a missing memory changes nothing and reports "skipped"; otherwise the row is marked deleted with its time, active→deleted is logged, and "deleted" is reported |
| Memories.NoneEventEffect | openmemory/api/app/routers/memories.py:130-132 | NONE changes nothing and reports "skipped" |
| Memories.HandleTracked | openmemory/api/app/routers/memories.py:67-132 | a handler that returns keeps every memory tracked, and no handler removes a row |
| Memories.RaisedAddUntracks | openmemory/api/app/routers/memories.py:74-95 | an ADD without content on a paused memory leaves it active while its last history record says paused |
| Memories.StepSkips | openmemory/api/app/routers/memories.py:448-497 | `Step`: an unknown event is skipped as UNKNOWN_EVENT_TYPE with the tables untouched; a raising handler is skipped as HANDLER_ERROR; a DELETE of a missing memory is skipped as UNKNOWN_EVENT_TYPE; NONE is skipped as NOOP |
| Memories.ProcessAborts | openmemory/api/app/routers/memories.py:570-582 | the result loop aborts with an error exactly when some result has a missing or malformed id |
| Memories.ProcessAccounts | openmemory/api/app/routers/memories.py:438-501 | `Process`: a completed loop puts every result in exactly one of the four lists, so the total processed equals the number of results; every created, updated or deleted memory exists afterwards and no row is removed |
| Memories.ProcessOnlySkips | openmemory/api/app/routers/memories.py:448-497 | results that are all NONE events or events without a handler change no table and no change list |
| Memories.FirstOfChanges | openmemory/api/app/routers/memories.py:550-563 | `First`: a memory is returned exactly when some change was made, and it is the first created, else the first updated, else the first deleted |
| Memories.CreateEffect | openmemory/api/app/routers/memories.py:421-582 | `Create`: the tables change only when the loop completes with at least one change; then the first changed memory is returned as committed; the response is the error object exactly when some result has no usable id |
| Memories.MemoryDb.constructor | openmemory/api/app/routers/memories.py:43-63 | a session whose view equals the committed tables |
| Memories.MemoryDb.Commit | openmemory/api/app/routers/memories.py:62 | the committed tables become the session's view |
| Memories.MemoryDb.Discard | openmemory/api/app/routers/memories.py:515-566 | the session's view returns to the committed tables |
| Memories.MemoryDb.UpdateMemoryState | openmemory/api/app/routers/memories.py:43-63 | the session and the committed tables become `UpdateState`'s result and the changed row is returned, or both stay and the 404 is returned |
| Memories.MemoryDb.UpdateMemoryStates | openmemory/api/app/routers/memories.py:620-621 | the loop of committed state changes ends in the tables and the outcome `UpdateAll` gives |
| Memories.UpdateAllStep | openmemory/api/app/routers/memories.py:620-621 | after ids that all succeeded, one more id adds exactly that id's state change, or its 404 |
| Memories.MemoryDb.CreateOrUpdateMemory | openmemory/api/app/routers/memories.py:67-83 | the session becomes what `_create_or_update_memory` leaves, with whether it completed; nothing is committed |
| Memories.MemoryDb.HandleAdd | openmemory/api/app/routers/memories.py:86-96 | the session and the outcome are those of the ADD handler; nothing is committed |
| Memories.MemoryDb.HandleUpdate | openmemory/api/app/routers/memories.py:99-110 | the session and the outcome are those of the UPDATE handler; nothing is committed |
| Memories.MemoryDb.HandleDelete | openmemory/api/app/routers/memories.py:113-127 | the session and the outcome are those of the DELETE handler; nothing is committed |
| Memories.MemoryDb.ProcessResults | openmemory/api/app/routers/memories.py:438-497 | the loop over results leaves the session and the four lists that `Process` gives, or reports the abort; nothing is committed |
| Memories.MemoryDb.CreateMemory | openmemory/api/app/routers/memories.py:421-582 | the committed tables and the response are those of `Create`: one commit only for a batch with a change |
| Memories.ScanWithoutBlanket | openmemory/api/app/routers/memories.py:165-181 | `Scan`: without rules that name no memory, the scan gives the named allowed memories minus the named denied ones |
| Memories.ScanFirstBlanket | openmemory/api/app/routers/memories.py:165-175 | the first allow or deny rule that names no memory decides: allow gives all memories, deny gives none, whatever follows |
| Memories.AccessibleCases | openmemory/api/app/routers/memories.py:144-181 | `Accessible`: no rules give all memories; otherwise the first blanket rule decides; otherwise the allowed minus the denied, empty when only denies exist |
| Memories.AccessibleMemoryIds | openmemory/api/app/routers/memories.py:144-181 | the loop with its early returns computes the accessible set that `Accessible` defines |
| Memories.PlanPause | openmemory/api/app/routers/memories.py:648-716 | every branch applies the requested state, paused when none is given |
| Memories.PausePrecedence | openmemory/api/app/routers/memories.py:658-716 | a missing user is a 404; then the global flag, then the app id, then listed ids (restricted to the user's memories when all_for_app is set), then category ids; a request naming none of them is the 400 |
| Memories.SelectedSkipsDeleted | openmemory/api/app/routers/memories.py:668-713 | no queried pause branch touches a deleted memory, and only the listed-ids-of-user branch can touch an archived one |
| Memories.SortOrderCases | openmemory/api/app/routers/memories.py:823-844 | `SortOrder`: without both a column and a direction the order is created_at descending; otherwise a direction other than asc/desc (after lower-casing) is the 400 "Invalid sort direction", then a column other than memory, app_name or created_at is the 400 "Invalid sort column"; memory sorts by content, app_name by app name, created_at by creation time, descending exactly for "desc" |
| Memories.SortDirectionCaseInsensitive | openmemory/api/app/routers/memories.py:824 | the direction is matched in any case |
| ConfigRouter.DefaultConfiguration | openmemory/api/app/routers/config.py:60-119 | the default configuration has exactly the openmemory and mem0 sections |
| ConfigRouter.DefaultMem0Entries | openmemory/api/app/routers/config.py:66-83 | the default llm and embedder sections, entry by entry: openai, its models, and the key as the reference "env:OPENAI_API_KEY" |
| ConfigRouter.DefaultGraphStoreCases | openmemory/api/app/routers/config.py:88-117 | a graph store is added exactly when proxy mode or direct mode is configured; proxy mode wins and keeps no direct URL; both store the password as the literal "env:NEO4J_PASSWORD" and default the database to "neo4j" |
| ConfigRouter.ProxyFlagCaseInsensitive | openmemory/api/app/routers/config.py:88-94 | proxy mode needs the flag to read "true" in any case, plus a proxy URL, user name and password |
| ConfigRouter.MergeFails | openmemory/api/app/routers/config.py:142-156 | the merge raises exactly when the stored mem0 is present and not a dict |
| ConfigRouter.MergeKeeps | openmemory/api/app/routers/config.py:139-156 | `Merge`: the merge never overwrites: stored keys keep their values, stored non-null mem0 entries keep theirs, and only openmemory and mem0 can be added at the top |
| ConfigRouter.MergeFills | openmemory/api/app/routers/config.py:139-156 | after the merge openmemory and mem0 exist, llm and embedder are non-null, and graph_store is there exactly when it was stored or the defaults hold one |
| ConfigRouter.FillMem0Idempotent | openmemory/api/app/routers/config.py:145-156 | filling a filled mem0 changes nothing |
| ConfigRouter.MergeIdempotent | openmemory/api/app/routers/config.py:139-156 | merging twice is merging once |
| ConfigRouter.MergeDefaults | openmemory/api/app/routers/config.py:136-156 | any defaults of the shape the merge reads are their own merge, so a freshly created row reads back unchanged |
| ConfigRouter.DefaultConfigurationShaped | openmemory/api/app/routers/config.py:60-119 | the default configuration holds what the merge reads from it: openmemory, and a mem0 dict with non-null llm and embedder |
| ConfigRouter.DefaultMem0 | openmemory/api/app/routers/config.py:66-118 | the default mem0 holds exactly llm, embedder and, when Neo4j is configured, graph_store, with those values |
| ConfigRouter.FillMem0Fills | openmemory/api/app/routers/config.py:145-156 | `FillMem0`: filling a stored mem0 adds exactly llm, embedder and the default graph store if any; llm and embedder end non-null; every non-null stored entry keeps its value; the default graph store goes in only where none is stored |
| ConfigRouter.FillMem0Filled | openmemory/api/app/routers/config.py:145-156 | a mem0 that already holds non-null llm and embedder, and a graph store where the defaults have one, is left unchanged |
| ConfigRouter.ReadAfterLoad | openmemory/api/app/routers/config.py:121-164 | `Read` and `Loaded`: after a read the row exists; reading again gives what the first read gave |
| ConfigRouter.MergeInPlace | openmemory/api/app/routers/config.py:135-156 | the in-place merge steps compute `Merge` |
| ConfigRouter.FillInPlace | openmemory/api/app/routers/config.py:145-156 | the in-place llm, embedder and graph-store steps compute `FillMem0` |
| ConfigRouter.DropNone | openmemory/api/app/routers/config.py:199-202 | dropping nulls keeps a dict a dict and anything else as it is |
| ConfigRouter.DropNoneSound | openmemory/api/app/routers/config.py:199-202 | no null remains at any depth, exactly the non-null keys are kept, and a value without nulls is unchanged |
| ConfigRouter.DropNoneIdempotent | openmemory/api/app/routers/config.py:199-202 | dropping nulls twice is dropping them once |
| ConfigRouter.SetSectionOnly | openmemory/api/app/routers/config.py:238-243 | `SetSection`: a section update fails only on a mem0 that is not a dict; otherwise it replaces only its own mem0 key with the body without nulls and keeps everything else |
| ConfigRouter.SetThenGet | openmemory/api/app/routers/config.py:226-255 | what a section update writes, its getter reads back; other sections read as before |
| ConfigRouter.UpdateOpenMemoryMerges | openmemory/api/app/routers/config.py:286-291 | `UpdateOpenMemory`: the openmemory update merges: stored fields the body leaves out or nulls stay, the body's non-null fields win, nothing outside openmemory changes |
| ConfigRouter.UpdateConfigurationReplaces | openmemory/api/app/routers/config.py:193-202 | `UpdateConfiguration`: the whole update replaces mem0 by the body's (no stored mem0 entry survives that the body lacks) and merges openmemory only when one is given |
| ConfigRouter.DeleteGraphStoreOnly | openmemory/api/app/routers/config.py:329-340 | `DeleteGraphStore`: deletion is a 404 without mem0 or without a graph store; otherwise only the graph store is removed and the getter then reports 404 |
| ConfigRouter.DeletedGraphStoreReturns | openmemory/api/app/routers/config.py:155-156 | when the defaults hold a graph store, merging a configuration whose graph store was deleted brings back the default graph store |
| ConfigRouter.DeletedGraphStoreReread | openmemory/api/app/routers/config.py:324-340 | with Neo4j configured in the environment, after the graph store is deleted from what was read and saved, the next read returns the default graph store |
| ConfigRouter.ConfigDb.constructor | openmemory/api/app/routers/config.py:121-179 | the table starts with the given rows |
| ConfigRouter.ConfigDb.GetConfig | openmemory/api/app/routers/config.py:121-164 | returns `Read` of the rows; a missing row is created with the defaults and an existing one is not written back, since the comparison at line 159 compares the row's value with itself |
| ConfigRouter.ConfigDb.SaveConfig | openmemory/api/app/routers/config.py:166-179 | the row with that key ends up holding the given value, inserted when missing; an existing row is written when the value differs from the stored one, so either way it holds the new value; other rows stay |
| ConfigRouter.ConfigDb.GetConfiguration | openmemory/api/app/routers/config.py:181-185 | returns what `get_config_from_db` returns |
| ConfigRouter.ConfigDb.UpdateConfigurationHandler | openmemory/api/app/routers/config.py:187-207 | saves and returns `UpdateConfiguration` of the loaded row and resets the client cache, or fails with nothing saved |
| ConfigRouter.ConfigDb.SaveConfiguration | openmemory/api/app/routers/config.py:193-207 | once the row is read: saves and returns `UpdateConfiguration` of it and drops the cached client; on a failed update nothing changes |
| ConfigRouter.ConfigDb.ResetConfiguration | openmemory/api/app/routers/config.py:209-224 | saves and returns the default configuration and resets the client cache |
| ConfigRouter.ConfigDb.GetSectionHandler | openmemory/api/app/routers/config.py:226-255 | returns the section, an empty dict when missing |
| ConfigRouter.ConfigDb.GetOpenMemoryHandler | openmemory/api/app/routers/config.py:274-279 | returns the openmemory section, an empty dict when missing |
| ConfigRouter.ConfigDb.GetGraphStoreHandler | openmemory/api/app/routers/config.py:298-305 | returns the graph store, or 404 when missing or null |
| ConfigRouter.ConfigDb.UpdateSectionHandler | openmemory/api/app/routers/config.py:233-248 | saves `SetSection` of the loaded row, resets the client cache and returns the new section |
| ConfigRouter.ConfigDb.SaveSection | openmemory/api/app/routers/config.py:238-248 | once the row is read: saves `SetSection` of it, returns the new section and drops the cached client; on a failure nothing changes |
| ConfigRouter.ConfigDb.UpdateOpenMemoryHandler | openmemory/api/app/routers/config.py:281-296 | saves `UpdateOpenMemory` of the loaded row, resets the client cache and returns the merged section |
| ConfigRouter.ConfigDb.SaveOpenMemory | openmemory/api/app/routers/config.py:286-296 | once the row is read: saves `UpdateOpenMemory` of it, returns the merged section and drops the cached client; on a failure nothing changes |
| ConfigRouter.ConfigDb.DeleteGraphStoreHandler | openmemory/api/app/routers/config.py:324-340 | saves `DeleteGraphStore` of the loaded row and resets the cache, or returns the 404 with nothing saved |
| ConfigRouter.ConfigDb.SaveWithoutGraphStore | openmemory/api/app/routers/config.py:329-340 | once the row is read: saves `DeleteGraphStore` of it, confirms and drops the cached client; otherwise nothing changes and the 404 or failure is returned |
| MemoryClient.Resolve | openmemory/api/app/utils/memory.py:453-479 | a dict keeps its key set with every value resolved at every depth; anything that is not a dict comes back unchanged |
| MemoryClient.ResolveUnchanged | openmemory/api/app/utils/memory.py:461-473 | a configuration whose references all name unset or empty variables comes back unchanged |
| MemoryClient.ResolveField | openmemory/api/app/utils/memory.py:460-477 | an "env:NAME" string becomes the variable's value when it is set and non-empty (NAME being everything after the first colon) and stays otherwise; a dict is resolved recursively; any other value stays |
| MemoryClient.ParseEnvironmentVariables | openmemory/api/app/utils/memory.py:453-479 | the key-by-key loop computes `Resolve` |
| MemoryClient.Lookup | openmemory/api/app/utils/memory.py:514-522 | `key in v and v[key]` as Python evaluates it: raises on a non-container, is false for a missing key, else the value |
| MemoryClient.FixOllamaUrls | openmemory/api/app/utils/memory.py:113-137 | a section without "config" is returned as it is; a missing ollama_base_url is set to http://host.docker.internal:11434; a URL with localhost or 127.0.0.1 is rehosted only when the docker host is not "localhost"; no other entry changes |
| MemoryClient.FixOllamaUrlsCases | openmemory/api/app/utils/memory.py:119-137 | the three cases of the fix-up, entry by entry |
| MemoryClient.RehostAbsent | openmemory/api/app/utils/memory.py:130-134 | rehosting keeps a URL that names neither loopback spelling |
| MemoryClient.IntSetting | openmemory/api/app/utils/memory.py:179-181 | `int()` of the variable or of its default, an error where `int()` raises |
| MemoryClient.RequiredInt | openmemory/api/app/utils/memory.py:196 | `int()` of a variable that must be set, an error when unset |
| MemoryClient.TencentConfigCases | openmemory/api/app/utils/memory.py:147-189 | `TencentConfig`: the Tencent configuration is built exactly when URL, key and username are set and non-empty, the integers parse and the metric is cosine, l2 or ip; the collection defaults to `<default>_collection`, the dimension to 1536 and the timeout to 60 |
| MemoryClient.WithCredentialsKeys | openmemory/api/app/utils/memory.py:236-272 | an optional credential key is present afterwards exactly when it was before or its variable is set and non-empty; other keys keep their values |
| MemoryClient.CredentialPresent | openmemory/api/app/utils/memory.py:236-272 | with distinct keys, a credential missing from the base is present exactly when its variable is set and non-empty, with that value |
| MemoryClient.AddCredentials | openmemory/api/app/utils/memory.py:236-272 | the credential loop computes `WithCredentials` |
| MemoryClient.DetectFirstEnabled | openmemory/api/app/utils/memory.py:301-366 | `DetectVectorStore` and `Build`: detection takes the first enabled provider in the order Tencent, chroma, qdrant, weaviate, redis, pgvector, milvus, elasticsearch, opensearch, faiss, and returns what its builder gives, errors included |
| MemoryClient.DetectFallback | openmemory/api/app/utils/memory.py:294-298 | with no provider enabled the result is qdrant with the port from QDRANT_PORT or 6333 |
| MemoryClient.PgvectorCredentialsPresent | openmemory/api/app/utils/memory.py:229-240 | the pgvector configuration has host and port, and dbname, user and password exactly when their variables are set and non-empty |
| MemoryClient.ElasticsearchCredentialsPresent | openmemory/api/app/utils/memory.py:257-273 | the Elasticsearch configuration has its fixed fields, and user and password exactly when their variables are set and non-empty |
| MemoryClient.EsCredentials | openmemory/api/app/utils/memory.py:268-272 | over any base without user and password: each is added exactly when its variable is set and non-empty, and verify_certs keeps its value |
| MemoryClient.FillVectorStore | openmemory/api/app/utils/memory.py:425-428 | the collection name is always there afterwards; the host is there exactly when it was already or the provider is not tencent_vectordb; detected entries keep their values |
| MemoryClient.LlmConfig | openmemory/api/app/utils/memory.py:369-384 | the LLM settings fail exactly on a non-integer LLM_MAX_TOKENS; the provider defaults to openai; the config holds exactly model (gpt-4o-mini), temperature (0.1, as text), max_tokens (2000 or the parsed variable), the api_key reference and base_url exactly when OPENAI_BASE_URL is set and non-empty |
| MemoryClient.EmbedderConfig | openmemory/api/app/utils/memory.py:387-406 | the embedder settings fail exactly on a non-integer EMBEDDER_DIMS (whatever the provider); the provider defaults to openai; the config holds exactly model, the api_key reference, base_url exactly when EMBEDDER_BASE_URL is set and non-empty, and the dimension (1536 or the parsed variable) exactly for provider ollama with a non-zero dimension |
| MemoryClient.DefaultMemoryConfig | openmemory/api/app/utils/memory.py:409-451 | the default configuration has exactly the vector_store, llm, embedder and version entries |
| MemoryClient.ApplySection | openmemory/api/app/utils/memory.py:522-548 | once loading has raised nothing more is applied; a section never removes an entry and changes no entry but its own |
| MemoryClient.Overlay | openmemory/api/app/utils/memory.py:510-538 | laying the stored row over the defaults never removes a default entry |
| MemoryClient.OverlaySections | openmemory/api/app/utils/memory.py:518-538 | with a stored mem0 dict the defaults remain for every section not stored; a non-null stored llm, then embedder, then vector_store replaces the default once the sections before it have loaded, an ollama llm or embedder with its URLs fixed; a stored llm whose loading raises stays as stored and nothing after it is applied |
| MemoryClient.AssembleConfig | openmemory/api/app/utils/memory.py:497-561 | the assembled configuration has the vector_store, llm, embedder and version entries, or there is none when the defaults raise |
| MemoryClient.AssembleInstructions | openmemory/api/app/utils/memory.py:559-590 | non-empty instructions from the caller win over stored ones; without a stored row and caller instructions the defaults are used as they are; failing defaults give no client |
| MemoryClient.AssembleStoredInstructions | openmemory/api/app/utils/memory.py:558-561 | without instructions from the caller (none or empty), truthy stored instructions become the prompt of the assembled configuration |
| MemoryClient.Assemble | openmemory/api/app/utils/memory.py:520-561 | the stored row and the instructions are laid over the defaults without removing any default key |
| MemoryClient.AssembleChoosesInstructions | openmemory/api/app/utils/memory.py:559-561 | over any defaults: non-empty caller instructions are the ones set; without them, truthy stored instructions are set on the overlaid configuration and otherwise it is left without a prompt; with no stored row and no instructions the defaults come out unchanged |
| MemoryClient.ClientCache.constructor | openmemory/api/app/utils/memory.py:51-52 | no client and no hash |
| MemoryClient.ClientCache.Reset | openmemory/api/app/utils/memory.py:140-144 | clears the client and the hash |
| MemoryClient.ClientCache.Obtain | openmemory/api/app/utils/memory.py:572-585 | a cached client with the same hash is returned unchanged; otherwise the new build is cached with the hash and returned, and a failed build clears both and returns none |
| MemoryClient.ClientCache.GetMemoryClient | openmemory/api/app/utils/memory.py:482-590 | assembles, resolves references, hashes, then makes the cache decision of `Obtain`: the cached client for an unchanged hash, otherwise the built client cached with the new hash, or both cleared when building fails; failing defaults leave the cache as it is and give no client |
| TencentVectorDb.ClauseCases | mem0/vector_stores/tencent_vectordb.py:499-518 | an entry yields no condition exactly for a dict with neither bound; every condition starts with its key; `Clause`: a string gives `key = "v"`, an integer `key = v`, a bool `key = True`/`key = False`, a float its literal, a list `key = "<str of the list>"`, None `key = "None"`; a dict with both bounds gives `key >= a AND key <= b`, with one bound `key >= a` or `key <= b` |
| TencentVectorDb.ClausesInOrder | mem0/vector_stores/tencent_vectordb.py:498-518 | without boundless dicts there is one condition per entry, in the entries' order |
| TencentVectorDb.ClausesAtMost | mem0/vector_stores/tencent_vectordb.py:498-518 | there are never more conditions than entries |
| TencentVectorDb.CreateFilter | mem0/vector_stores/tencent_vectordb.py:483-522 | the loop computes `FilterExpression`: no filter for empty filters, else the conditions joined by " AND " |
| TencentVectorDb.SingleFilter | mem0/vector_stores/tencent_vectordb.py:499-522 | a single contributing entry is the whole expression |
| TencentVectorDb.MetricLookups | mem0/vector_stores/tencent_vectordb.py:62-69 | `MetricOf`: metric names match in any case; the constructor accepts exactly cosine, l2 and ip; `create_col` agrees on those and falls back to cosine on anything else |
| TencentVectorDb.ResetKeepsMetric | mem0/vector_stores/tencent_vectordb.py:474-478 | re-creating the collection with the lower-cased metric name keeps the metric |
| TencentVectorDb.WithMetadata | mem0/vector_stores/tencent_vectordb.py:237-239 | the attributes afterwards are the old ones plus the metadata keys |
| TencentVectorDb.SetAttributes | mem0/vector_stores/tencent_vectordb.py:237-239 | the `setattr` loop computes `WithMetadata` |
| TencentVectorDb.Documents | mem0/vector_stores/tencent_vectordb.py:230 | `zip` gives as many documents as the shortest list |
| TencentVectorDb.DefaultIds | mem0/vector_stores/tencent_vectordb.py:223-224 | one default id per vector |
| TencentVectorDb.EmptyPayloads | mem0/vector_stores/tencent_vectordb.py:225-226 | one empty payload per vector |
| TencentVectorDb.Insert | mem0/vector_stores/tencent_vectordb.py:220-244 | nothing is sent for no vectors; otherwise the documents built from the given or default ids and payloads, in order |
| TencentVectorDb.BuildDocument | mem0/vector_stores/tencent_vectordb.py:230-240 | the document built for one vector is `DocumentOf` its id, vector and payload: the id and vector, plus every payload field as an attribute when the payload is non-empty |
| TencentVectorDb.DocumentFields | mem0/vector_stores/tencent_vectordb.py:232-239 | `DocumentOf`: a document has id, vector and one attribute per payload key holding its value |
| TencentVectorDb.DefaultIdsDistinct | mem0/vector_stores/tencent_vectordb.py:224 | default id i reads as i, so no two documents share one |
| TencentVectorDb.UpdateNestsPayload | mem0/vector_stores/tencent_vectordb.py:326-333 | update fails without an id; with one the payload is sent whole as the single metadata field, not as attributes as insert does |
| TencentVectorDb.Without | mem0/vector_stores/tencent_vectordb.py:362 | the payload holds exactly the document's fields outside the excluded ones, with their values |
| TencentVectorDb.Search | mem0/vector_stores/tencent_vectordb.py:264-300 | the filter is built only when filters are given; no result gives no hits; otherwise one hit per document of the first result, in order |
| TencentVectorDb.GetVector | mem0/vector_stores/tencent_vectordb.py:354-374 | no hit gives the empty output (no id, score or payload); otherwise the first document of the first result: its id, no score, and a payload of exactly its fields other than id and vector |
| TencentVectorDb.ListVectors | mem0/vector_stores/tencent_vectordb.py:430-462 | the filter is built only when filters are given; the output is a single outer list with one entry per document, in order |
| TencentVectorDb.PayloadsExclude | mem0/vector_stores/tencent_vectordb.py:288-291 | `SearchHit` and `StoredHit`: payloads never carry id or vector and search payloads not the score; a missing search score reads as 0.0 |
| TencentVectorDbConfig.ValidateExtraFields | mem0/configs/vector_stores/tencent_vectordb.py:18-26 | the input passes exactly when its keys are declared fields, and is then returned unchanged; otherwise the error names exactly the extra fields |
| TencentVectorDbConfig.FromValuesDefaults | mem0/configs/vector_stores/tencent_vectordb.py:6-26 | `FromValues`: an empty input gives the defaults mem0, mem0, 1536, cosine, 30 with no credentials; any extra field is refused; each missing field takes its default |
| TencentVectorDbConfig.FromValuesKeeps | mem0/configs/vector_stores/tencent_vectordb.py:7-14 | a given field of the right type is taken as it is |
| TencentVectorDbConfig.ClientConfigAccepted | mem0/configs/vector_stores/tencent_vectordb.py:18-26 | the configuration the memory client builds for Tencent passes the validator, because no host is added for this provider |
| TencentVectorDbConfig.FromValuesAccepts | mem0/configs/vector_stores/tencent_vectordb.py:6-26 | an input makes a configuration exactly when it has only declared fields, each of its declared type |
| TencentVectorDbConfig.HostRefused | mem0/configs/vector_stores/tencent_vectordb.py:18-26 | an input with a host field is refused, and the error names host |
| TencentVectorDbConfig.ShapedAccepted | mem0/configs/vector_stores/tencent_vectordb.py:18-26 | a well-typed configuration of exactly the declared fields passes the validator once the vector-store defaults are filled in, which add nothing to it |
| TencentVectorDbConfig.ClientConfigShape | openmemory/api/app/utils/memory.py:147-189 | the Tencent configuration the memory client builds has exactly the declared fields, each of the declared type |
| Categorization.WithoutCompletions | openmemory/api/app/utils/categorization.py:38-42 | a trailing "/chat/completions" or "/chat/completions/" is removed and nothing else |
| Categorization.NormalizeBaseUrl | openmemory/api/app/utils/categorization.py:33-51 | none or "" gives ""; otherwise the result ends with "/v1", starts with the URL without its completions suffix, and is at most three characters longer |
| Categorization.VersionedHasNoCompletions | openmemory/api/app/utils/categorization.py:39-42 | a URL ending in "/v1" carries no completions suffix |
| Categorization.NormalizeKeepsVersioned | openmemory/api/app/utils/categorization.py:45 | a URL already ending in "/v1" is kept |
| Categorization.NormalizeIdempotent | openmemory/api/app/utils/categorization.py:33-51 | normalising twice is normalising once |
| Categorization.NormalizeDropsCompletions | openmemory/api/app/utils/categorization.py:39-51 | a URL with the completions suffix normalises as the URL without it |
| Categorization.NormalizeJoinsWithOneSlash | openmemory/api/app/utils/categorization.py:45-49 | a trailing "/" gets "v1", otherwise "/v1" is appended |
| Categorization.DefaultBaseUrl | openmemory/api/app/utils/categorization.py:54-61 | a known provider gets its fixed URL, any other provider the OpenAI one |
| Categorization.DefaultsAreNormal | openmemory/api/app/utils/categorization.py:56-61 | every default URL is already normal |
| Categorization.ClientSettings | openmemory/api/app/utils/categorization.py:66-102 | a missing or empty key is the error; otherwise the URL is the normalised base URL or the provider's default, always ending with "/v1", and provider ollama gets the key "ollama" |
| Categorization.NormalizeCategories | openmemory/api/app/utils/categorization.py:134-141 | the loop keeps the string entries, stripped and lower-cased, drops the empty ones, in order |
| Categorization.ParseCategoriesResponse | openmemory/api/app/utils/categorization.py:110-141 | the parse computes `CategoriesOf` |
| Categorization.CategoriesOfCases | openmemory/api/app/utils/categorization.py:112-131 | `CategoriesOf`: empty content gives []; invalid JSON is the error; a missing "categories" key or a non-list value gives [] |
| Categorization.NormalizedNamesAreClean | openmemory/api/app/utils/categorization.py:136-139 | every kept name is non-empty, lower-case, with no surrounding space |
| Categorization.NormalizeCategoryClean | openmemory/api/app/utils/categorization.py:137 | a normalised name has no surrounding space and no capital |
| Categorization.NormalizedMembers | openmemory/api/app/utils/categorization.py:134-141 | a name is kept exactly when it is the normal form of some string entry and is non-empty |
| Categorization.NormalizedConcat | openmemory/api/app/utils/categorization.py:135 | the entries of two lists normalise to the concatenation of their results, so order is preserved |
| Categorization.BlankMemoryNeedsNoCall | openmemory/api/app/utils/categorization.py:159-161 | blank memory text gives [] whatever the key and the reply, so no LLM call is made |
| Categorization.MemoryUsesReply | openmemory/api/app/utils/categorization.py:163-194 | `CategoriesForMemory`: otherwise the key check comes first, then no choices or no message give [], and a message is parsed |
| EmbedderTimeout.ToInt | openmemory/api/app/utils/embedder_timeout_patch.py:22-27 | `int()` of an integer, of a bool (1 or 0) or of numeric text; none where it raises, and none for a float (see below) |
| EmbedderTimeout.TimeoutPrecedence | openmemory/api/app/utils/embedder_timeout_patch.py:18-30 | `TimeoutSeconds`: the config dict's timeout wins, then a non-empty EMBEDDER_TIMEOUT, then 60; the environment does not matter once the config has one |
| EmbedderTimeout.TimeoutFromVariable | openmemory/api/app/utils/embedder_timeout_patch.py:25-27 | without a config timeout a numeric variable is used |
| EmbedderTimeout.ApiKey | openmemory/api/app/utils/embedder_timeout_patch.py:33-38 | the configured key when non-empty, else OPENAI_API_KEY when non-empty, else EMBEDDER_API_KEY |
| EmbedderTimeout.ApiKeySources | openmemory/api/app/utils/embedder_timeout_patch.py:35-38 | the key returned always comes from one of the three sources |
| EmbedderTimeout.NormalizeOllamaUrl | openmemory/api/app/utils/embedder_timeout_patch.py:41-48 | empty input is returned as it is; otherwise trailing slashes are removed and "/v1" added for provider ollama when missing |
| EmbedderTimeout.NormalizeOllamaUrlIdempotent | openmemory/api/app/utils/embedder_timeout_patch.py:41-48 | normalising twice is normalising once |
| EmbedderTimeout.NormalizeOllamaUrlCases | openmemory/api/app/utils/embedder_timeout_patch.py:45-47 | other providers only lose trailing slashes; ollama URLs end with "/v1" |
| EmbedderTimeout.BaseUrlPrecedence | openmemory/api/app/utils/embedder_timeout_patch.py:51-75 | `BaseUrlForOpenAi`: the client's URL (unless it is the OpenAI default), then openai_base_url, then ollama_base_url, then the two variables, each normalised; otherwise the raw OpenAI default |
| EmbedderTimeout.ClientDefaultSkipped | openmemory/api/app/utils/embedder_timeout_patch.py:55-56 | a client URL that is the OpenAI default with trailing slashes is skipped |
| EmbedderTimeout.SlashesStripped | openmemory/api/app/utils/embedder_timeout_patch.py:45-55 | stripping trailing slashes removes only slashes and leaves none at the end |
| EmbedderTimeout.BaseUrlIsNormal | openmemory/api/app/utils/embedder_timeout_patch.py:57-75 | every result is the default or a normalised URL, so normalising it again changes nothing |
| LoggingConfig.FindUnit | openmemory/api/app/logging_config.py:49-51 | the unit found is the first in the list that ends the text; none when no unit does |
| LoggingConfig.NoUnit | openmemory/api/app/logging_config.py:49-54 | a text of digits is ended by no unit |
| LoggingConfig.DigitsUnchanged | openmemory/api/app/logging_config.py:37 | digits and capitals without surrounding space are unchanged by the strip and upper-casing |
| LoggingConfig.PlainNumber | openmemory/api/app/logging_config.py:53-54 | a plain decimal number is that many bytes |
| LoggingConfig.WithUnit | openmemory/api/app/logging_config.py:39-51 | `ParseSize`: a number followed by GB/G is scaled by 1024³, MB/M by 1024², KB/K by 1024; "10MB" is ten mebibytes because the two-letter units are tried first |
| LoggingConfig.EarlierUnitsMiss | openmemory/api/app/logging_config.py:39-50 | the units tried before the one a number ends with do not end it |
| LoggingConfig.FirstUnit | openmemory/api/app/logging_config.py:49-51 | the first unit that ends the text is the one found |
| LoggingConfig.DefaultIsTenMebibytes | openmemory/api/app/logging_config.py:56 | the default "10M" is 10485760 bytes |
| LoggingConfig.ParseSizeCaseInsensitive | openmemory/api/app/logging_config.py:37 | case does not matter |
| LoggingConfig.RejectsBareUnit | openmemory/api/app/logging_config.py:51 | a unit with no number before it is an error |
| LoggingConfig.RejectsUnknownSuffix | openmemory/api/app/logging_config.py:51-54 | a number followed by "B" alone is an error |
| Database.IndexOf | openmemory/api/app/database.py:19 | the first position of the separator, or none when it does not occur |
| Database.Scheme | openmemory/api/app/database.py:19 | the scheme is the text before the first "://", none without one |
| Database.ValidateUrl | openmemory/api/app/database.py:10-25 | an unset variable means the sqlite default; a blank URL is rejected, and only a blank one; otherwise the stripped URL, whose scheme is none, empty or one of sqlite, mysql, postgresql, postgres, mariadb |
| Database.SupportedSchemeAccepted | openmemory/api/app/database.py:18-25 | a URL starting with a supported scheme and "://" is accepted as its stripped self |
| Database.NoSeparatorAccepted | openmemory/api/app/database.py:19-21 | a URL without "://" passes |
| Database.EmptySchemeAccepted | openmemory/api/app/database.py:19-21 | a URL starting with "://" passes, its scheme being empty |
| Database.DriverSchemeRejected | openmemory/api/app/database.py:18-25 | a driver-suffixed scheme such as "postgresql+psycopg2://" is rejected |
| Database.DefaultUrlAccepted | openmemory/api/app/database.py:10 | the default sqlite URL passes |
| Database.PoolInt | openmemory/api/app/database.py:34-36 | `int()` of the variable or of its default |
| Database.EngineKwargsCases | openmemory/api/app/database.py:28-52 | `EngineKwargs`: sqlite URLs get check_same_thread false and no pool settings; other URLs get pool size, overflow, timeout and a recycle of 3600; pre-ping is the lower-cased flag equal to "true" |
| Database.PrePing | openmemory/api/app/database.py:37 | pre-ping is on when the flag is unset |
| Database.PoolDefaults | openmemory/api/app/database.py:34-36 | unset pool variables give 5, 10 and 30 |
| Database.EngineSettings | openmemory/api/app/database.py:10-52 | the validated URL with its options, or the validation error |

## Left out

- Network I/O: the `requests.post` transport, the vector-store SDK calls, the OpenAI and Ollama clients and the mem0 engine are inputs; the `create_col` readiness loop with its sleeps is not modelled.
- Concurrency: the stats lock; the counters are updated one call at a time.
- The replacement of `Neo4jGraph.query` and `EmbedderFactory.create` in foreign classes: only the idempotence flag and the counting wrapper are kept.
- ConfigRouter.ConfigDb.SaveConfig: assumes the session no longer holds the row instance that `get_config_from_db` loaded and edited in place. Nothing refers to that instance once the function returns, and the session keeps unmodified instances only weakly, so the query of `save_config_to_db` loads the row afresh. Were the instance still held, an edited existing row would compare equal to the assigned value and not be written.
- SQLAlchemy query building, joins, pagination, `distinct`, eager loading and ORM event listeners: the tables are maps, and the rows a pause query selects are described by `Memories.Selected` instead of being updated one by one; the pause branches that loop over queried rows reuse the batch of state changes only in the listed-ids branch.
- `create_memory`'s user and app lookups, the paused-app check, the client lookup and graph-store logging happen before the modelled part; the model starts from the engine's answer.
- Timestamps of history records and of category rows; category ids are counters instead of UUIDs.
- The LLM call itself and its retry, and the categorisation timeout setting.
- Categorization.ClientSettings: models the client's first initialisation only; the cached client is reused afterwards without checking the key again.
- The docker-host probe (socket and `/proc`) and the configuration hash: both are parameters.
- Floats: the LLM temperature and float filter values are kept as their literal text; no arithmetic is done on them, and truthiness is read from the literal (a non-zero digit before any exponent, or NaN or an infinity).
- MemoryClient.LlmConfig: does not model `float()` of `LLM_TEMPERATURE` raising on text that is not a number, which makes `get_memory_client` return no client; the text is passed through.
- EmbedderTimeout.ToInt: a float timeout is treated as an error instead of being truncated by `int()`.
- TencentVectorDb.ClauseCases: lists and dicts inside filter values are rendered by a `show` parameter standing for Python's `str()`.
- pydantic coercions beyond dropping nulls, in request bodies, in the response models that FastAPI validates and filters handler results through (for example `ConfigSchema` on GET /, and a 500 for a section that fails `LLMProvider`; the handlers here return the raw dict) and in the Tencent store's configuration class: lax mode accepts "30" or 30.0 for an integer field, while TencentVectorDbConfig.FromValues accepts only integers there.
- Logging calls, the logging handler setup and the startup wiring.
- String operations are ASCII: case mapping and whitespace cover ASCII characters only.
- Python's `in` on a `mem0` value that is neither a dict, a list nor a string is modelled as raising, which the surrounding `try` turns into the fallback.
