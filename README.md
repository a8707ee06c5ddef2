# Local voice assistant core, modelled in Dafny

This project models the core of a local French-speaking voice assistant. A
spoken *turn* goes through speech-to-text, a local language model and
speech synthesis. A worker pool takes turns from a FIFO queue and runs them
through that pipeline, and an in-memory store keeps every turn.

Around that core the model also covers:

- a registry of tools that the language model may call: local handlers or
  remote HTTP endpoints;
- a SQLite conversation log with a recency query and an embedding search;
- the pre-roll ring buffer and the hotword text helpers of the standalone
  assistant;
- the guard that asks the language model again when it answers in JSON;
- the two HTTP routes for line L train departures and stock prices.

There is one Dafny module per source file:

- `Models`: `app/core/models.py`.
- `Store`: `app/core/store.py`.
- `Pipeline`: `app/core/pipeline.py`.
- `Worker`: `app/core/worker.py`.
- `Tools`: `app/tools/tool_registry.py`.
- `Memory`: `app/core/memory.py`.
- `Voice`: `assistant_voice.py`.
- `LlmGuard`: `app/llm/llama_test.py`.
- `Trains`: `app/api/routes_trains.py`.
- `Finance`: `app/api/routes_finance.py`.

Four modules hold shared vocabulary:

- `Wrappers`: `Option` and `Result`.
- `Text`: Python's `strip`, `split`, `join`, `lower`, `upper`, `startswith`, `endswith` and `in` on strings, and decimal formatting of integers.
- `JsonValue`: JSON values and the outcome of `json.loads`.
- `Api`: what a FastAPI route produces. This is a body, an `HTTPException`, or an exception that FastAPI turns into a 500.

Every collaborator whose behaviour lies outside the core is an input to the operation that calls it. These are the ASR, LLM and TTS engines, the embeddings service, HTTP requests, tool handlers, `json.loads`, CSV parsing, environment variables, uuid and the clock. Each is either a value describing what the call did (returned, with its duration, or raised, with its message) or a function parameter standing for it. The code keeps its own form:

- State changed in place is a `class` whose methods carry `modifies` clauses. These are the turn store, the pipeline's history map, the worker's queue, the two SQLite tables and the ring buffer.
- The tool registry's dict is filled once, by its constructor's loop, and only read afterwards. It is a class whose fields are constants, with functions reading them.
- Pure code is functions.
- Each loop of the source is a `while` or `for` loop with its invariants. These are `start`, the registry and manifest builders, eviction, the departure mapping and the scoring loop.
- `fetch_recent`'s `rows.reverse()` is an in-place reversal of an array.

## Model

| member | source | states |
|---|---|---|
| Models.ParseStatus | app/core/models.py:10-16 | looking a status up by its string value finds the member with that value, and finds nothing exactly when no member has it |
| Models.SixDistinctStatuses | app/core/models.py:10-16 | the enum has exactly six members, with six distinct values, and each value looks up its own member |
| Models.NewTurn | app/core/models.py:19-40 | a new turn is `queued` and has the generated turn id. It keeps a given non-empty session id and otherwise takes the generated one. Its optional fields are all `None`, its timings are empty, and its creation time is the clock reading |
| Store.TurnStore.constructor | app/core/store.py:8-9 | a new store is empty |
| Store.TurnStore.Put | app/core/store.py:11-12 | the key set grows by exactly the turn's id, the turn is filed under its id, and every other entry is unchanged. Every entry stays filed under its own id |
| Store.TurnStore.Get | app/core/store.py:14-15 | returns `None` exactly for an id never put, and otherwise the entry, whose id is the one asked for |
| Store.TurnStore.All | app/core/store.py:17-18 | the whole map, every value filed under its own turn id |
| Store.PutThenGet | app/core/store.py:11-15 | a `get` right after a `put` returns the turn put, and an id never put is still absent |
| Pipeline.Prompt | app/core/pipeline.py:42-44 | the messages sent to the model: the system prompt, then the session history unchanged, then the user's transcript (`""` for none) |
| Pipeline.ExchangeKeepsAlternation | app/core/pipeline.py:50-51 | appending one user/assistant exchange keeps a history made of whole exchanges |
| Pipeline.RunTurn | app/core/pipeline.py:27-61 | a run keeps the turn's id and session, assigns one to four statuses and makes at most three calls. When an exception escapes, every status assigned had its call made |
| Pipeline.RunTurnStages | app/core/pipeline.py:27-61 | a turn without audio becomes `error` with "audio_in_path is missing", with no call made and no history touched. Otherwise the statuses follow transcribing, generating, synthesizing, done, and each call is made in its stage's status. Id, session, input path, creation time and earlier error are untouched |
| Pipeline.RunTurnOutcome | app/core/pipeline.py:27-61 | the turn ends in the last status set. The status is terminal exactly when no exception escaped, and the exception is that of the first collaborator that raised. The statuses assigned are legal moves from `queued`, so a queued turn follows a legal path |
| Pipeline.RunTurnData | app/core/pipeline.py:33-58 | ASR gets the input path, the model gets the composed prompt, and TTS gets the answer and `app/tts/outputs/turn_<id>.wav`. Timings only gain keys. A successful run records the transcript, the answer, the returned audio path and the three durations under `asr_s`, `llm_s` and `tts_s` |
| Pipeline.RunTurnHistory | app/core/pipeline.py:41-51 | the session's history is touched once generation starts. It grows by exactly one user/assistant exchange once the model answers, even when synthesis then fails, and is never trimmed |
| Pipeline.VoicePipeline.constructor | app/core/pipeline.py:12-25 | keeps the system prompt; the history map starts empty |
| Pipeline.VoicePipeline.Run | app/core/pipeline.py:27-61 | run step by step, it produces exactly the turn, exception, statuses and calls of `RunTurn`. It changes only this session's history, as `RunTurn` says, and keeps every history a run of whole exchanges |
| Worker.ProcessedTurnEnds | app/core/worker.py:44-51 | a processed turn always ends in `done` or `error`, along a legal path of statuses. After an exception it keeps every field set before the failure and records the message. Its identity never changes |
| Worker.WorkerPool.constructor | app/core/worker.py:18-23 | the queue and the list of executor tasks start empty |
| Worker.WorkerPool.Start | app/core/worker.py:25-27 | exactly `concurrency` new tasks (none when it is not positive), added after the existing ones, and the queue is untouched |
| Worker.WorkerPool.Enqueue | app/core/worker.py:34-35 | one job at the back of the queue; the unfinished count grows by one |
| Worker.WorkerPool.Step | app/core/worker.py:37-51 | the front job is taken (FIFO) and marked done exactly once. A job whose turn is not stored is dropped and nothing else changes. A stored turn goes through the pipeline, an escaped exception becomes `error` with its message, and the turn is always written back. An empty queue changes nothing |
| Worker.WorkerPool.Process | app/core/worker.py:44-51 | runs the pipeline, settles an escaped exception into `error` and puts the turn back, whatever happened |
| Worker.TakesInOrder | app/core/worker.py:34-51 | two jobs enqueued on an idle pool are taken in the order they were enqueued, and both are marked done |
| Tools.Parameters | app/tools/tool_registry.py:31-40 | the endpoint's schema, or the default `payload` object schema when it has none or an empty one |
| Tools.ToolSpec | app/tools/tool_registry.py:41-50 | a `function` entry carrying the endpoint's name, description and schema |
| Tools.RequestFor | app/tools/tool_registry.py:85-92 | the request goes to the endpoint's URL with its timeout and its method upper-cased. Its JSON body is the `payload` argument, or null when the arguments are not a dict or lack it |
| Tools.ResponseData | app/tools/tool_registry.py:99-105 | `data` is the decoded body when the content type mentions `application/json` in any case and the body decodes, and null otherwise |
| Tools.Classify | app/tools/tool_registry.py:107-112 | the keys are `ok`, `status_code`, `data` and `text`. `ok` and `status_code` mirror the response, and `text` is the body exactly when `data` is null |
| Tools.Registered | app/tools/tool_registry.py:23-26 | the registry has no more keys than endpoints, and the last endpoint in the list is always filed under its name |
| Tools.RegisteredNames | app/tools/tool_registry.py:23-26 | the registry's keys are distinct and are exactly the names occurring in the endpoint list, each entry filed under its own name |
| Tools.LastDuplicateWins | app/tools/tool_registry.py:23-26 | when names repeat, the entry is the last endpoint with that name |
| Tools.KeysInFirstOccurrenceOrder | app/tools/tool_registry.py:23-26 | the keys keep the order in which names first appear in the list |
| Tools.ToolRegistry.constructor | app/tools/tool_registry.py:23-26 | the loop builds exactly the dict `Registered` describes, which satisfies the registry invariant |
| Tools.ToolRegistry.ToolSpecs | app/tools/tool_registry.py:28-51 | one manifest entry per registered endpoint, in registry order |
| Tools.ToolRegistry.Execute | app/tools/tool_registry.py:53-112 | never fails and always returns a dict with a boolean `ok`. An unknown name gives `tool_not_found: <name>`, and `ok` is true only for a registered name |
| Tools.HandlerTakesPriority | app/tools/tool_registry.py:61-77 | a tool with a handler never touches the network. `ok` holds exactly when the handler returned, and its result is the `data`. An `HTTPException` gives its detail and status code; any other exception gives `handler_failed: <message>` |
| Tools.MissingUrlFails | app/tools/tool_registry.py:79-83 | no handler and no (or an empty) URL gives `tool_missing_url: <name>` |
| Tools.RemoteCall | app/tools/tool_registry.py:85-112 | a remote call depends on the network only through its one request. A request failure gives `request_failed: <message>`. A response gives exactly the dict `Classify` builds from it: `ok` and status mirrored, and exactly one of `data` and `text` non-null |
| Memory.NewestIndices | app/core/memory.py:83-94 | the newest-first query returns at most `limit` rows, all of the session |
| Memory.NewestAreLastOfSession | app/core/memory.py:83-94 | the newest-first query returns exactly the session's last `limit` rows, newest first |
| Memory.SessionRowsInIdOrder | app/core/memory.py:83-94 | a session's rows come in increasing id order and none is missed |
| Memory.RecentRows | app/core/memory.py:83-95 | reversing the query's rows gives the session's last `limit` rows, oldest first |
| Memory.ReverseInPlace | app/core/memory.py:95 | the array afterwards holds its old contents in reverse order |
| Memory.Candidates | app/core/memory.py:104-115 | the candidate window holds only the session's vector rows, at most `candidate_limit` of them when that is not negative |
| Memory.CandidatesAreNewest | app/core/memory.py:104-115 | the candidate window is exactly the session's last `candidate_limit` vector rows (all of them for a negative limit), newest first |
| Memory.Cosine | app/core/memory.py:130-137 | zero when either vector is empty or either norm is zero, and otherwise the quotient |
| Memory.SortDesc | app/core/memory.py:122 | the scored pairs sorted by non-increasing score, a permutation of the input |
| Memory.SortDescStable | app/core/memory.py:122 | the sort is stable: pairs of equal score keep their newest-first order |
| Memory.TopContents | app/core/memory.py:123 | the contents of the first `limit` pairs, in order |
| Memory.RankedFromSession | app/core/memory.py:104-123 | the search returns at most `limit` contents, each from one of the session's vector rows |
| Memory.RankedInScoreOrder | app/core/memory.py:117-123 | the contents returned are the first `limit` of the scored candidates once put in non-increasing score order |
| Memory.SQLiteMemory.constructor | app/core/memory.py:25-50 | both tables start empty |
| Memory.SQLiteMemory.Append | app/core/memory.py:61-78 | empty content changes nothing. Otherwise one log row is added with the next id, plus a linked vector row only when the embedding is non-empty. A failing embedding rolls the log row back and reports its message. Ids stay consecutive and every vector row copies its log row |
| Memory.SQLiteMemory.FetchRecent | app/core/memory.py:80-96 | nothing for a limit that is not positive. Otherwise the role and content of the session's last `limit` log rows, oldest first |
| Memory.SQLiteMemory.Search | app/core/memory.py:98-123 | empty for an empty query, a limit that is not positive or an empty query embedding, and the embedding's error when it fails. Otherwise the contents of the session's newest candidates, best score first, at most `limit` |
| Voice.NormalizeText | assistant_voice.py:60-61 | the result has the same words as the lower-cased, stripped text. It is lower-case and single-spaced, with no white space at either end |
| Voice.NormalizeIdempotent | assistant_voice.py:60-61 | the result is empty exactly for a blank text, and normalising twice equals normalising once |
| Voice.StripHotword | assistant_voice.py:64-70 | the result has no white space at either end |
| Voice.StripHotwordWords | assistant_voice.py:64-70 | a blank text gives `""`. The result's words are the normalised text's words, less the first exactly when it is the hotword, and the result is itself normalised |
| Voice.Concat | assistant_voice.py:121-122 | the concatenation has as many bytes as the chunks together |
| Voice.ConcatSnoc | assistant_voice.py:121-122 | joining one more chunk appends its bytes at the end |
| Voice.ConcatAt | assistant_voice.py:121-122 | byte `j` of chunk `i` is found in the concatenation right after all the bytes of the chunks before it |
| Voice.Evict | assistant_voice.py:117-119 | eviction never adds chunks, and what it keeps fits the capacity or is empty |
| Voice.EvictKeepsNewest | assistant_voice.py:117-119 | eviction keeps the longest suffix of the chunks that fits the capacity, or nothing when no suffix fits |
| Voice.NewestChunkKept | assistant_voice.py:112-119 | a chunk no larger than the capacity is always kept, as the newest chunk |
| Voice.RingBuffer.constructor | assistant_voice.py:107-110 | no chunks, size zero |
| Voice.RingBuffer.Append | assistant_voice.py:112-119 | empty data changes nothing. Otherwise the chunk goes at the back and the oldest chunks are evicted as `Evict` says. The counter stays the total length, and the chunks held stay the newest ones appended and fit unless none is held |
| Voice.RingBuffer.GetBytes | assistant_voice.py:121-122 | the chunks held, concatenated in order, as many bytes as the counter |
| Voice.RingBuffer.Clear | assistant_voice.py:124-126 | no chunks and a zero counter |
| LlmGuard.BaseUrlParts | app/llm/llama_test.py:57-58 | the URL is `http://`, the host and `:`, then digits that read back as the port, then `/v1` |
| LlmGuard.BaseUrl | app/llm/llama_test.py:57-58 | the URL starts with `http://`, the host and `:`, and ends with `/v1` |
| LlmGuard.LooksLikeJson | app/llm/llama_test.py:125-127 | a text that looks like JSON is not blank |
| LlmGuard.LooksLikeJsonChars | app/llm/llama_test.py:125-127 | once stripped, the text is at least two characters, opening with `{` and closing with `}` or opening with `[` and closing with `]`. A blank text never looks like JSON |
| LlmGuard.AskTextOnlyAsWritten | app/llm/llama_test.py:156-188 | as written, one to three requests, the first as asked and all with the same prompt and settings |
| LlmGuard.AsWrittenRetriesTwice | app/llm/llama_test.py:167-186 | as written, a made-up tool call followed by a failing reinforced request leads to a third request |
| LlmGuard.ThirdCallExample | app/llm/llama_test.py:167-186 | on the run where the first answer is a made-up tool call and every reinforced request times out, the code as written makes three requests, while the single-retry guard makes two and lets the timeout escape |
| LlmGuard.RetrySuffix | app/llm/llama_test.py:169-186 | retry exactly when the answer looks like JSON and is invalid JSON or a made-up tool call, with the suffix for that case |
| LlmGuard.AskTextOnly | app/llm/llama_test.py:156-188 | one or two requests, all with the same prompt and settings. The second is made exactly when the first answer looks like JSON and is invalid JSON or a made-up tool call, with the matching reinforced system prompt. The answer is that of the last request, and a failed first request escapes |
| LlmGuard.AsWrittenAgreesOtherwise | app/llm/llama_test.py:156-188 | the code as written and the single-retry guard agree on every run but the one the finding describes |
| Trains.ClampCount | app/api/routes_trains.py:22 | the count lies in [1, 20], unchanged inside that range and clamped at each end |
| Trains.PathAbsent | app/api/routes_trains.py:38-42 | once a key is missing, a chained `.get` lookup yields `None` |
| Trains.EmptyPath | app/api/routes_trains.py:38-42 | a chained lookup in `{}` yields `None` |
| Trains.PathPresent | app/api/routes_trains.py:38-42 | for any number of keys, when every value on the way is a dict holding the next key, the chained `.get` lookup gives the value plain indexing reaches |
| Trains.MapDeparture | app/api/routes_trains.py:35-43 | a mapped record has exactly the five keys, each holding its chained lookup in the item's `departure` (or `{}`). Mapping fails exactly when the item or its departure is not a dict or one lookup meets a non-dict. An item without `departure` maps to five `None` fields |
| Trains.DepartureItems | app/api/routes_trains.py:34 | items come only from a dict: its `departures` list, or none when the key is missing |
| Trains.MapDepartures | app/api/routes_trains.py:33-44 | succeeds exactly when every item maps, giving one record per item in order. Otherwise it fails with the first failing item's error |
| Trains.Departures | app/api/routes_trains.py:32-50 | the body has the stop area, the count and one record per departure item, in order. It is an exception when the items cannot be mapped |
| Trains.FetchLineLDepartures | app/api/routes_trains.py:12-50 | a missing or blank key gives 503 before anything else, and a blank stop area gives 400. Otherwise there is one request with the stripped key and the clamped count: a failure gives 502 `sncf lookup failed: …`, a body that is not JSON an exception, and otherwise the departures answer |
| Trains.Lookup | app/api/routes_trains.py:20-50 | the request to the stop area's departures URL with the `line:L` filter, then the 502, exception or departures answer |
| Finance.GetFinancePrice | app/api/routes_finance.py:14-42 | a blank symbol gives 400 and no request. A request failure gives 502 `price lookup failed: …`. 404 is given exactly when there is no row or its `Close` is missing or `N/A`. Otherwise the row's symbol (the queried one when it is missing or empty) and the seven fields, copied verbatim |
| Finance.QuoteHasClose | app/api/routes_finance.py:28-42 | a quote found always has a closing price other than `N/A` |

## Left out

- Audio capture, playback, Vosk, Whisper and Piper engines: these are foreign engines and I/O. The pipeline sees them only as collaborator outcomes.
- `compute_rms` and the `VoiceAssistant` capture loop in `assistant_voice.py`: these are floating-point RMS, wall-clock timing and a live audio stream.
- The asyncio concurrency of the worker pool, and `stop()`: task cancellation and `gather` are not modelled. `Step` is one loop iteration, run to completion before the next, and `Start` records the executor tasks it creates without running them.
- Worker.WorkerPool.Step: the executor's blocking wait on an empty queue is modelled as a step that changes nothing.
- The aliasing of the stored turn object: the real pipeline mutates the very turn object held by the store, so the store shows intermediate statuses while a run is in progress. The model builds the new turn as a value and writes it back at the end, which gives the same final state.
- `_vector_norm` and the dot product in `_cosine_similarity`: floating point. The norm and the quotient are function parameters, and only the zero guards are modelled.
- The JSON text round trip of stored embeddings: a vector row holds the vector itself.
- `CREATE TABLE IF NOT EXISTS` on an existing database file: the model always starts from empty tables, and `created_at` columns are not modelled.
- Memory.SQLiteMemory.Search: the in-place `scored.sort` is modelled as a stable insertion sort on a sequence value, not in place.
- `sanitize_utf8`, `chat_completion`, `is_server_up`, `wait_server`, `start_server`, `stop_server`: network and process management. The chat request and `json.loads` are function parameters.
- The uuid4 strings and `time.time()` in `Turn.new` are parameters of `NewTurn`.
- `Text.Lower` and `Text.Upper` map only ASCII and Latin-1 letters; Python's full Unicode case mapping is not modelled.
- JSON numbers are integers only (`Num(n: int)`). Floats in handler results, in a tool's decoded `data` or in departure fields are not represented.
- JSON object key order is not modelled: a dict is a map. The registry's key order, which `tool_specs` depends on, is kept separately as a sequence of names.
- The parsing of the CSV text into the first row (`csv.DictReader`) is an input to `GetFinancePrice`.
- Finance.GetFinancePrice: the result dict is a record with one field per key rather than a JSON object.
- Requests' case-insensitive header lookup: the `content-type` header is given as the value found, if any.
- An exception raised while mapping departures (a value that is not a dict where `.get` is called) is modelled as an unhandled exception. FastAPI turns it into a 500; its message is not modelled.
- Trains.FetchLineLDepartures: the other HTTP-level effects (query string encoding, basic authentication with an empty password) are described by the request value only.

## Findings

| source | as written | input that shows it | evidently intended | confidence | as-written member | corrected member |
|---|---|---|---|---|---|---|
| app/llm/llama_test.py:171-186 | the reinforced request after a made-up tool call is made inside the `try`, so when it raises, the `except` clause meant for invalid JSON makes a third request | the first answer is `{"name": "x", "parameters": {}}` and the second request raises (for example a timeout) | ask again at most once, as the function's docstring says; a failing second request escapes | not executed; medium | LlmGuard.ThirdCallExample | LlmGuard.AskTextOnly |
