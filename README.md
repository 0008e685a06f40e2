# zeke.nvim core, modelled in Dafny

zeke.nvim is a Neovim plugin, written in Rust, that connects the editor to
AI chat backends and to a companion Zeke command-line server. This project
models its core in Dafny and proves properties of that model. One module
stands for each source file:

- `Discovery` (`src/discovery.rs`) finds the running command-line sessions
  through the lock files of a session directory. It keeps the active ones,
  newest first, and deletes stale lock files. It also stops sessions and
  cleans up after them.
- `WebSocket` (`src/websocket.rs`) covers the messages exchanged with the
  server: the tagged `StreamMessage` union and the JSON-RPC 2.0 request and
  response envelopes (sections 4 and 5 of the JSON-RPC 2.0 specification).
  The client is a class holding its session, its outbound queue and its
  handlers. The receive loop broadcasts each parsed message and answers a Ping
  with a Pong (section 5.5.3 of RFC 6455).
- `Providers` (`src/providers/mod.rs`) is the provider manager that keeps one
  active backend and rebuilds it on a switch.
- `ProviderRegistry` (`src/providers.rs`) is the manager that registers every
  backend under a name and forwards each call to the current one. Both files
  declare the crate module `providers`, so they cannot be built together;
  each is modelled on its own, as written.
- `GhostLLM`, `Ollama`, `OpenAI`, `Claude` and `Copilot`
  (`src/providers/*.rs`) are the backends. They cover request construction,
  status handling, response decoding, the line scanning of streamed replies,
  the consent retry and the fallback model catalogs. `Http` holds what the
  backends share.
- `Streaming` (`src/streaming.rs`) covers the stream handler, the bounded
  chunk buffer and the per-chunk event-stream decoder.
- `Ai` (`src/ai.rs`) covers the fenced code-block extractor, its formatter and
  the system prompt.
- `Terminal` (`src/terminal.rs`) covers the task registry and the status
  transitions of running a shell command.
- `Auth` (`src/auth.rs`) covers the credential store without its network and
  file I/O: presence checks, credential maps, scope splitting, the Pro plan
  flag and the Ollama probe order.
- `Config` (`src/config.rs`) covers the defaults, the overlay of a Lua
  configuration table and the overlay of the environment variables.

`Common`, `Text` and `Json` are helpers. They hold Option and Result, the
string operations of Rust's standard library (`lines`, `split`, `trim`, and
ASCII lower-casing in place of `to_lowercase`) and a JSON value type.

The outside world becomes data, so the model has no I/O:

- An HTTP reply is a record of its status and body.
- JSON text parsing is a function parameter (`Parser`) that returns a JSON
  value or nothing.
- Server answers that arrive over time are a script of replies.
- Process liveness is a set of running pids plus a set of responding ports.
- The session directory is a map from file name to its parsed contents, read
  in the order of a `listing`.
- Environment variables are a map.
- The outcomes of spawning a process, opening a socket or running an OAuth
  flow are method parameters.

Where the code does state changes step by step, the model does too. Terminal,
Discovery, WebSocket, Streaming, Config and Auth use classes with `modifies`
frames and loops with invariants. Each method is proved against a
specification function, and the lemmas are proved about that function.

The code puts no bound on GhostLLM consent rounds: `make_request` calls
itself after every approval (`GhostLLM.NoRetryBound`).

## Model

| member | source | states |
|---|---|---|
| Http.Checked | src/providers/openai.rs:86-91 | the status guard: a reply passes exactly when it arrived with a 2xx status; otherwise the error carries the prefix and the body |
| Http.DecodeEach | src/providers/openai.rs:23-31 | a list decodes exactly when every element does, element for element |
| Http.EachRoundTrip | src/providers/openai.rs:23-31 | a list encoded element by element decodes back, given that each element does |
| Http.ChatResponseRoundTrip | src/providers/openai.rs:23-31 | a chat response's messages read back from its encoding |
| Http.StreamChunkRoundTrip | src/providers/openai.rs:33-46 | a stream chunk's delta contents read back from its encoding |
| Http.FirstDelta | src/providers/openai.rs:256-258 | the first choice's delta content, present exactly when there is a first choice and it has content |
| Http.Scan | src/providers/ghostllm.rs:248-265 | a `for line in text.lines()` loop returning the first hit yields that hit, unless a stop line comes first, and "" when there is none |
| Streaming.OkPrefix | src/streaming.rs:23-34 | the chunks a stream delivers before its first error, in order; an error ends the stream |
| Streaming.StreamHandler.constructor | src/streaming.rs:12-15 | a new handler's channel is empty |
| Streaming.StreamHandler.HandleStream | src/streaming.rs:17-37 | the answer is always `Ok`: the concatenation of the chunks before the first error; exactly those chunks are queued on the channel, in order |
| Streaming.StreamHandler.NextChunk | src/streaming.rs:39-41 | the oldest queued chunk is received and leaves the queue |
| Streaming.PushValue | src/streaming.rs:57-62 | a push never exceeds the capacity, grows a buffer below capacity by one, and leaves the pushed chunk last |
| Streaming.PushValueKeepsNewest | src/streaming.rs:57-62 | one push keeps the newest min(n + 1, capacity) chunks |
| Streaming.PushAllKeepsNewest | src/streaming.rs:57-62 | after any run of pushes the buffer holds the newest `capacity` chunks of the old contents and the pushed ones, in push order |
| Streaming.PushAllFromEmpty | src/streaming.rs:50-62 | from a new buffer, the pushes leave the last min(n, capacity) chunks |
| Streaming.PushContent | src/streaming.rs:57-66 | `get_content` after a push is the old content plus the chunk, minus the oldest chunk's text when the buffer was full |
| Streaming.StreamBuffer.constructor | src/streaming.rs:50-55 | a new buffer is empty with the given capacity |
| Streaming.StreamBuffer.Push | src/streaming.rs:57-62 | the buffer becomes `PushValue` of the old one and stays within capacity |
| Streaming.StreamBuffer.GetContent | src/streaming.rs:64-66 | the content is "" for an empty buffer, and otherwise begins with the oldest kept chunk and ends with the newest |
| Streaming.StreamBuffer.Clear | src/streaming.rs:68-70 | the buffer is empty and its content is `""` |
| Streaming.ProcessSseChunk | src/streaming.rs:78-94 | a transport error becomes "Stream error: …"; otherwise the result is the concatenated payloads of the chunk's `data: ` lines, `[DONE]` excluded |
| Streaming.SseTextOfFrames | src/streaming.rs:84-91 | a chunk made of one `data: ` line per payload gives back the payloads' concatenation |
| Streaming.SseTextSkipsDone | src/streaming.rs:85-89 | a `data: [DONE]` line contributes nothing |
| Ai.ExtractCodeBlocks | src/ai.rs:69-92 | the loop over `lines()` returns exactly the blocks of the two-state fence scan, in order |
| Ai.RunBlockCount | src/ai.rs:73-89 | each pair of fence lines closes one block; an odd last fence leaves a block open that is never returned |
| Ai.BlockCountIsClosedPairs | src/ai.rs:69-92 | the number of blocks is the number of fence lines divided by two, rounded down |
| Ai.BlocksHoldNoFenceLine | src/ai.rs:74-88 | no extracted block contains a line starting with three backticks |
| Ai.NoFenceNoBlocks | src/ai.rs:74-88 | text without fence lines yields no blocks |
| Ai.RunKeepsFencesOut | src/ai.rs:74-88 | the open block never holds a fence line, whatever lines are scanned |
| Ai.RunCollects | src/ai.rs:83-88 | inside a block, non-fence lines are joined with `\n` |
| Ai.OpeningLineIsFence | src/ai.rs:94-99 | the opening line of a formatted block is a fence line, with or without a language |
| Ai.FormatCodeBlock | src/ai.rs:94-99 | the block opens with the fence and the language, or the fence alone, on its own line, ends with the closing fence on its own line, and holds exactly the code between them |
| Ai.LinesOfFormatted | src/ai.rs:94-99 | a formatted block's lines are the opening fence, the code's lines and the closing fence |
| Ai.ExtractFormatted | src/ai.rs:69-99 | extracting from `format_code_block(code, lang)` gives back exactly `[code]` when the code has no fence line, no carriage return and no leading empty line |
| Ai.CreateSystemPrompt | src/ai.rs:101-107 | the system prompt is the fixed prefix, the task and the fixed suffix, and the task can be read back from between them |
| Ai.SystemPromptFramesTask | src/ai.rs:101-107 | different tasks give different system prompts |
| Terminal.TaskManager.constructor | src/terminal.rs:31-36 | a new manager holds no tasks and hands out ids from 1 |
| Terminal.TaskManager.CreateTask | src/terminal.rs:38-55 | the new task is Pending with empty output under a fresh id, the counter moves on by one and no other task changes |
| Terminal.TaskManager.UpdateTaskStatus | src/terminal.rs:57-65 | a known id gets the new status and nothing else changes; an unknown id fails with "Task {id} not found" and changes nothing |
| Terminal.TaskManager.AppendOutput | src/terminal.rs:67-75 | a known id's output becomes the old output followed by the text; an unknown id fails and changes nothing |
| Terminal.TaskManager.SetError | src/terminal.rs:77-86 | a known id records the error and becomes Failed, its output unchanged; an unknown id fails and changes nothing |
| Terminal.TaskManager.GetTask | src/terminal.rs:88-91 | returns the task stored under the id exactly when there is one |
| Terminal.TaskManager.ListTasks | src/terminal.rs:93-96 | returns every stored task, each once |
| Terminal.TaskManager.CancelTask | src/terminal.rs:98-100 | a known id becomes Cancelled; an unknown id fails and changes nothing |
| Terminal.TaskManager.CancelAllTasks | src/terminal.rs:102-110 | every Pending or Running task becomes Cancelled, every other task is unchanged, no task is active afterwards, and the call always succeeds |
| Terminal.TaskManager.GetActiveTasks | src/terminal.rs:112-119 | returns exactly the Pending and Running tasks, each once |
| Terminal.TaskManager.CleanCompletedTasks | src/terminal.rs:121-124 | removes exactly the Completed and Cancelled tasks and keeps the rest unchanged |
| Terminal.Terminal.constructor | src/terminal.rs:134-138 | the terminal starts with an empty task manager of its own |
| Terminal.Terminal.ExecuteCommand | src/terminal.rs:140-161 | creates one task, which ends Completed with stdout on success, Failed with stderr recorded on a failed command, and stays Running when the command cannot be spawned; the result is stdout, "Command failed: " and stderr, or the spawn error |
| Terminal.FinalTask | src/terminal.rs:140-161 | the task left behind is Running exactly when spawning failed, Completed exactly when the command succeeded and Failed exactly when it did not, with the matching output and error |
| Providers.FromStr | src/providers/mod.rs:30-40 | each type is chosen exactly for its lower-cased names and aliases; every other name fails with "Unknown provider: " and the name |
| Providers.FromStrName | src/providers/mod.rs:30-40 | each type's own name parses back to that type |
| Providers.FromStrIgnoresCase | src/providers/mod.rs:30-40 | a name and its lower-case form parse alike |
| Providers.MakeBackend | src/providers/mod.rs:67-104 | the backend has the requested type; it fails exactly when OpenAI, Claude or Copilot lacks its key, with that backend's message; Ollama falls back to `http://localhost:11434` and GhostLLM to `http://localhost:8080` without a token |
| Providers.ProviderManager.constructor | src/providers/mod.rs:50-61 | a new manager holds GhostLLM at `http://localhost:8080` without a session token, with GhostLLM enabled |
| Providers.ProviderManager.NewWithConfig | src/providers/mod.rs:63-114 | fails exactly when the backend cannot be built; otherwise the manager holds that backend, GhostLLM is enabled exactly for the GhostLLM type, and the GhostLLM URL is the configured one or the default |
| Providers.ProviderManager.SwitchProvider | src/providers/mod.rs:129-139 | builds the new backend with the manager's GhostLLM URL and no token; on failure nothing changes, on success only the backend and its type change |
| Providers.ProviderManager.GetGhostllmProvider | src/providers/mod.rs:141-148 | returns the active backend exactly when it is GhostLLM, and "Current provider is not GhostLLM" otherwise |
| Providers.ProviderManager.HealthCheck | src/providers/mod.rs:116-127 | every type but GhostLLM counts as healthy; GhostLLM is healthy exactly when its health probe answers with a 2xx status |
| Providers.ProviderManager.SetModel | src/providers/mod.rs:174-178 | the call always succeeds |
| Providers.ModelNamesDiffer | src/providers/mod.rs:180-188 | the model name reported depends on the type alone, and no two types report the same name |
| Providers.ProviderManager.GetCurrentModel | src/providers/mod.rs:180-188 | the name reported is the fixed name of the active backend's type, under the invariant that the recorded type is the backend's |
| ProviderRegistry.Defaults | src/providers.rs:30-42 | `new` registers exactly openai, claude, copilot and ollama, each with its backend's default model |
| ProviderRegistry.ProviderManager.constructor | src/providers.rs:30-42 | a new manager has the four backends and openai current |
| ProviderRegistry.ProviderManager.SetProvider | src/providers.rs:44-51 | succeeds exactly for a registered name and makes it current; otherwise fails with "Provider '…' not found" and changes nothing; the registrations never change |
| ProviderRegistry.ProviderManager.GetCurrentProvider | src/providers.rs:53-55 | the current name is a registered one, under the invariant that `new` and `set_provider` keep |
| ProviderRegistry.ProviderManager.Current | src/providers.rs:57-62 | returns the current backend exactly when its name is registered, and "Current provider not found" otherwise |
| ProviderRegistry.ProviderManager.Forward | src/providers.rs:70-88 | every forwarded call goes to the current backend, or fails with "Current provider not found" |
| ProviderRegistry.ProviderManager.ListModels | src/providers.rs:90-94 | the current backend's model list, or the empty list when there is none |
| ProviderRegistry.ProviderManager.SetModel | src/providers.rs:96-98 | only the current backend's model changes, to the given one; it fails with "Current provider not found" when there is no current backend |
| ProviderRegistry.ProviderManager.GetCurrentModel | src/providers.rs:100-104 | the current backend's model, or "unknown" |
| ProviderRegistry.ValidNeverFallsBack | src/providers.rs:44-62 | while the current name is registered, which `new` and `set_provider` keep, the fallbacks are never used |
| ProviderRegistry.FreshManager | src/providers.rs:30-42 | after `new` the current model is "gpt-4" and the listed models are OpenAI's four |
| Discovery.IsSessionActive | src/discovery.rs:130-138 | a session is active exactly when its process runs and its port answers; the port is probed only when the process runs |
| Discovery.LiveSessionsExactly | src/discovery.rs:45-59 | a session is collected exactly when some listed `.lock` entry parses to it and it is active |
| Discovery.Insert | src/discovery.rs:62 | inserting keeps every element and adds the new one |
| Discovery.InsertSorted | src/discovery.rs:62 | inserting into a newest-first list keeps it newest first |
| Discovery.SortByKeyDesc | src/discovery.rs:62 | the sort returns a permutation of its input ordered by descending start time |
| Discovery.SortIsStable | src/discovery.rs:62 | the sort is stable: sessions with equal start times keep their directory order |
| Discovery.DiscoveredExactly | src/discovery.rs:38-65 | `discover_sessions` returns newest first exactly the active sessions of the listed lock files |
| Discovery.FindByPort | src/discovery.rs:119-122 | the first session on the port, and none exactly when no session has that port |
| Discovery.Head | src/discovery.rs:68-71 | the first session of the list, and none exactly when the list is empty |
| Discovery.ZekeDiscovery.constructor | src/discovery.rs:31-35 | the discovery sees the session directory as it is (a missing directory has no files) |
| Discovery.ZekeDiscovery.DiscoverSessions | src/discovery.rs:38-65 | returns the active sessions of the listing sorted newest first, deletes exactly the lock files of inactive sessions and leaves every other file as it was |
| Discovery.ZekeDiscovery.ScanEntries | src/discovery.rs:45-59 | the loop collects the active sessions in listing order and removes exactly the stale lock files |
| Discovery.ZekeDiscovery.VisitEntry | src/discovery.rs:46-57 | one entry adds its session when active and is deleted exactly when its session is inactive; no other file changes |
| Discovery.ZekeDiscovery.RemoveIfExists | src/discovery.rs:185-188 | removes the file when it exists and reports whether it did |
| Discovery.ZekeDiscovery.FindActiveSession | src/discovery.rs:68-71 | returns the first of the live sessions after the stable newest-first sort: none exactly when none is active, and otherwise an active session with the latest start time, the earliest listed among equals |
| Discovery.ZekeDiscovery.EnsureConnection | src/discovery.rs:107-117 | a new instance is started exactly when no session is active, and its outcome is returned; otherwise the newest active session is returned |
| Discovery.ZekeDiscovery.FindSessionByPort | src/discovery.rs:119-122 | the first session on the port among the active sessions sorted newest first |
| Discovery.ZekeDiscovery.StopSession | src/discovery.rs:177-191 | the process is killed exactly when the graceful shutdown fails; a failed kill is returned with the files unchanged, otherwise the session's lock file is removed |
| Discovery.ZekeDiscovery.ListAllSessions | src/discovery.rs:232-254 | every parsed lock entry with its liveness, sorted newest first, and nothing is deleted |
| Discovery.ZekeDiscovery.CleanupStaleSessions | src/discovery.rs:257-274 | removes exactly the existing `<session_id>.lock` files of inactive sessions, keeps every other file, and returns how many it removed |
| Discovery.ZekeDiscovery.RemoveStaleLocks | src/discovery.rs:260-271 | the loop removes the stale lock names that exist and counts each removal once |
| WebSocket.EncodeChanges | src/websocket.rs:54-59 | one JSON object per file change, each the encoding of the change at the same position |
| WebSocket.DecodeChanges | src/websocket.rs:46-59 | a change list decodes exactly when every element does, and then element by element, keeping its length |
| WebSocket.ChangesRoundTrip | src/websocket.rs:54-59 | every list of file changes reads back from its encoding |
| WebSocket.ActionRoundTrip | src/websocket.rs:45-52 | every action request, with or without its optional path and changes, reads back from its encoding |
| WebSocket.StreamMessageRoundTrip | src/websocket.rs:32-43 | every stream message, tagged by `type`, reads back from its encoding |
| WebSocket.RequestRoundTrip | src/websocket.rs:9-15 | every JSON-RPC request reads back from its encoding |
| WebSocket.ResponseRoundTrip | src/websocket.rs:17-30 | a JSON-RPC response reads back from its encoding when its code fits in `i32` and no optional member holds JSON null |
| WebSocket.ResponseNullResultIsLost | src/websocket.rs:17-23 | a response whose result is JSON null reads back with no result: `Some(null)` and `None` share one encoding |
| WebSocket.Consumed | src/websocket.rs:116-140 | the receive loop consumes a prefix of the inbound items that ends at the first Close or read error, or takes them all |
| WebSocket.ConsumedIsPrefix | src/websocket.rs:116-140 | the loop that stops at the first stopping item consumed exactly the items up to it |
| WebSocket.BroadcastCallsEach | src/websocket.rs:120-123 | a message calls every handler once, in registration order |
| WebSocket.DeliveryReachesEveryHandler | src/websocket.rs:118-124 | a text frame that parses as a stream message reaches every handler; one that does not reaches none |
| WebSocket.WebSocketClient.constructor | src/websocket.rs:75-81 | a new client has no session, no channel and no handlers, and is not connected |
| WebSocket.WebSocketClient.Connect | src/websocket.rs:83-142 | a failed socket writes nothing and changes nothing; otherwise the auth frame with the session's token is written first, and only after it succeeds are the session and the channel recorded, so the client is connected |
| WebSocket.WebSocketClient.SendMessage | src/websocket.rs:193-200 | queues the frame after those already queued when connected, and fails with "WebSocket not connected" otherwise |
| WebSocket.WebSocketClient.IsConnected | src/websocket.rs:210-212 | a connected client holds a session |
| WebSocket.WebSocketClient.GetSession | src/websocket.rs:214-216 | a client without a session is not connected |
| WebSocket.WebSocketClient.SendRequest | src/websocket.rs:154-156 | queues the request's JSON encoding as one text frame, or fails when not connected |
| WebSocket.WebSocketClient.SendChatRequest | src/websocket.rs:144-157 | queues one `chat_completion` request whose params hold the user message, the context and `stream: true` |
| WebSocket.WebSocketClient.SendActionApproval | src/websocket.rs:159-167 | queues one frame holding the action id and an ActionResponse with the two flags |
| WebSocket.WebSocketClient.SendProviderSwitch | src/websocket.rs:169-180 | queues one `switch_provider` request naming the provider |
| WebSocket.WebSocketClient.SendContextUpdate | src/websocket.rs:182-191 | queues one `update_context` request whose params are the context |
| WebSocket.WebSocketClient.AddMessageHandler | src/websocket.rs:202-208 | the handler is registered after the existing ones |
| WebSocket.WebSocketClient.ReceiveStep | src/websocket.rs:117-138 | one inbound item: a parsed text frame reaches every handler, a Ping queues a Pong with its payload, and the loop stops exactly at Close or a read error |
| WebSocket.WebSocketClient.Dispatch | src/websocket.rs:120-123 | every handler is called with the message, in order |
| WebSocket.WebSocketClient.ReceiveLoop | src/websocket.rs:116-140 | the receiver task delivers and answers exactly the items it consumes, up to and including the first stopping one |
| GhostLLM.Authorization | src/providers/ghostllm.rs:85-87 | the bearer header is sent exactly when there is a session token, and carries it |
| GhostLLM.ConsentRoundTrip | src/providers/ghostllm.rs:101-103 | a consent reply reads back from its encoding |
| GhostLLM.ApproveConsent | src/providers/ghostllm.rs:118-137 | succeeds exactly when the approval post gets a 2xx reply; a transport error is passed on, any other status is "Failed to approve consent" |
| GhostLLM.MakeRequest | src/providers/ghostllm.rs:82-116 | the first post is the request itself; every later post is that same request again or a session-wide consent approval; each reply is used at most once |
| GhostLLM.AnswerOnSuccess | src/providers/ghostllm.rs:98-100 | a 200 reply answers with the first choice's content after a single post |
| GhostLLM.ConsentThenRetry | src/providers/ghostllm.rs:101-108 | a 403 asking for consent approves that consent id with `allow_session` and then posts the same request again |
| GhostLLM.FailedApprovalStops | src/providers/ghostllm.rs:105-106 | a failed approval ends the exchange with its error and no retry |
| GhostLLM.OtherForbidden | src/providers/ghostllm.rs:109-111 | a 403 of any other type fails with "GhostLLM error: " and the server's message |
| GhostLLM.OtherStatus | src/providers/ghostllm.rs:112-115 | any status besides 200 and 403 fails with "GhostLLM API error: " and the body |
| GhostLLM.ConsentScript | src/providers/ghostllm.rs:101-108 | a script of n consent rounds then a successful reply has 2n+1 replies |
| GhostLLM.ConsentRoundAdds | src/providers/ghostllm.rs:101-108 | one more consent round adds two posts and keeps the answer |
| GhostLLM.NoRetryBound | src/providers/ghostllm.rs:101-108 | after any number of consent rounds the first choice of the final reply is still returned, after 2n+1 posts: nothing bounds the retries |
| GhostLLM.Chat | src/providers/ghostllm.rs:139-152 | `chat` posts one non-streaming `auto` request holding the user message, with max_tokens 2048, and every chat post repeats it |
| GhostLLM.ListModels | src/providers/ghostllm.rs:181-212 | a 2xx reply gives the server's model ids, any other status the six-entry catalog beginning with "auto", and a transport error is passed on |
| GhostLLM.ProviderListModels | src/providers/ghostllm.rs:323-329 | the trait's list is the inherent one, or the three-entry catalog when that fails |
| GhostLLM.ScanDeltas | src/providers/ghostllm.rs:248-265 | a chunk yields the delta content of the first `data: ` line that has one, unless a `[DONE]` line comes first; otherwise it yields "" |
| GhostLLM.DecodeChunk | src/providers/ghostllm.rs:244-270 | each chunk is scanned line by line, and a transport error becomes "Stream error: " and the error |
| GhostLLM.ChatStream | src/providers/ghostllm.rs:214-273 | posts one streaming `auto` request; a non-2xx status is "Failed to start stream"; otherwise each chunk maps to its decoded text, one for one |
| GhostLLM.HealthCheck | src/providers/ghostllm.rs:276-288 | never fails, and is true exactly when `/health` answers with a 2xx status |
| Ollama.OllamaProvider.constructor | src/providers/ollama.rs:71-82 | the base URL is `OLLAMA_HOST` when set and `http://localhost:11434` otherwise; the model is "llama2" and the token limit 2048 |
| Ollama.OllamaProvider.WithModel | src/providers/ollama.rs:84-87 | only the model changes |
| Ollama.OllamaProvider.WithBaseUrl | src/providers/ollama.rs:89-92 | only the base URL changes |
| Ollama.OllamaProvider.SetModel | src/providers/ollama.rs:338-345 | always succeeds, and `get_current_model` then returns the model set |
| Ollama.OllamaProvider.Generate | src/providers/ollama.rs:94-119 | posts the prompt with the current model to `/api/generate`; a 2xx reply and a transport error pass through unchanged, and any other status fails with "Ollama API error: " and the body |
| Ollama.OllamaProvider.Chat | src/providers/ollama.rs:165-190 | posts one non-streaming user message to `/api/chat`; a non-2xx reply fails with "Ollama API error: " and the body; otherwise the result is the JSON-lines text of the body |
| Ollama.OllamaProvider.EditCode | src/providers/ollama.rs:192-225 | posts the edit system message and the instruction-and-code prompt; the result is the JSON-lines text, or the status error |
| Ollama.OllamaProvider.ExplainCode | src/providers/ollama.rs:227-253 | posts one user message asking to explain the code; the result is the JSON-lines text, or the status error |
| Ollama.OllamaProvider.AnalyzeCode | src/providers/ollama.rs:255-284 | posts one user message naming the kind of analysis; the result is the JSON-lines text, or the status error |
| Ollama.OllamaProvider.CreateFile | src/providers/ollama.rs:286-319 | posts the generator system message and the description prompt; the result is the JSON-lines text, or the status error |
| Ollama.OllamaProvider.Complete | src/providers/ollama.rs:121-146 | the shared post-then-accumulate path: transport errors pass through, a non-2xx reply fails with the body, a 2xx reply gives the JSON-lines text |
| Ollama.OllamaProvider.ChatStream | src/providers/ollama.rs:347-377 | posts one streaming user message; past the status guard each chunk maps to its decoded text, one for one |
| Ollama.ChatLineRoundTrip | src/providers/ollama.rs:38-47 | a chat line reads back from its encoding |
| Ollama.DoneIndex | src/providers/ollama.rs:178-188 | the loop reads up to and including the first line marked `done`, or every line when none is |
| Ollama.DoneIndexIs | src/providers/ollama.rs:178-188 | the number of lines read is fixed by where the first `done` line is |
| Ollama.ContentsAppend | src/providers/ollama.rs:178-188 | the texts of two runs of lines concatenate |
| Ollama.StopsAtFirstDone | src/providers/ollama.rs:183-185 | the result is the text of the lines up to and including the first `done` line, and nothing after it is read |
| Ollama.IgnoresSilentLine | src/providers/ollama.rs:179-181 | a line that does not parse, or parses without a message and without `done`, contributes nothing |
| Ollama.AccumulatedPast | src/providers/ollama.rs:178-188 | lines before the first `done` line are read whole |
| Ollama.ReadsAllWithoutDone | src/providers/ollama.rs:178-188 | without a `done` line every line's text is concatenated in order |
| Ollama.AccumulateJsonl | src/providers/ollama.rs:176-189 | the body read line by line yields exactly the JSON-lines text of its lines |
| Ollama.AccumulateLines | src/providers/ollama.rs:176-189 | the `for line in text.lines()` loop concatenates the parsed lines' contents up to and including the first `done` line, its break |
| Ollama.Absorb | src/providers/ollama.rs:179-186 | one iteration appends the line's message content and stops exactly on a parsed `done` line |
| Ollama.DecodeChunk | src/providers/ollama.rs:358-373 | a chunk yields the content of its first line that parses with a message, or ""; `done` plays no part; a transport error becomes "Stream error: " and the error |
| Ollama.ListLocalModels | src/providers/ollama.rs:148-162 | a non-2xx reply fails with "Failed to fetch Ollama models"; otherwise the names of the listed models |
| Ollama.ListModels | src/providers/ollama.rs:321-336 | the local models, or on any error the ten-entry catalog beginning with "llama2" |
| OpenAI.OpenAIProvider.constructor | src/providers/openai.rs:57-67 | the key is `OPENAI_API_KEY`, or empty when it is not set; the model is "gpt-4" and the token limit 2048 |
| OpenAI.OpenAIProvider.Complete | src/providers/openai.rs:69-95 | posts the messages with the bearer key to the completions endpoint; a transport error passes through, a non-2xx reply fails with "OpenAI API error: " and the body, a 2xx body gives the first choice's content |
| OpenAI.OpenAIProvider.Chat | src/providers/openai.rs:97-112 | posts one user message, non-streaming, and answers as every call does |
| OpenAI.OpenAIProvider.EditCode | src/providers/openai.rs:114-138 | one non-streaming post to the chat completions endpoint with "Bearer " and the key, the model and the token limit, carrying the editor system message and the instruction-and-code prompt; the reply is handled as in `complete` |
| OpenAI.OpenAIProvider.ExplainCode | src/providers/openai.rs:140-161 | one non-streaming post to the chat completions endpoint with "Bearer " and the key, the model and the token limit, carrying the explainer system message and the code; the reply is handled as in `complete` |
| OpenAI.OpenAIProvider.AnalyzeCode | src/providers/openai.rs:163-187 | one non-streaming post to the chat completions endpoint with "Bearer " and the key, the model and the token limit, carrying the analyser system message and the prompt naming the kind of analysis; the reply is handled as in `complete` |
| OpenAI.OpenAIProvider.CreateFile | src/providers/openai.rs:189-213 | one non-streaming post to the chat completions endpoint with "Bearer " and the key, the model and the token limit, carrying the generator system message and the description prompt; the reply is handled as in `complete` |
| OpenAI.OpenAIProvider.SetModel | src/providers/openai.rs:224-231 | always succeeds, and `get_current_model` then returns the model set |
| OpenAI.OpenAIProvider.ChatStream | src/providers/openai.rs:233-268 | posts one streaming user message; past the status guard each chunk maps to its decoded text, one for one |
| OpenAI.Contents | src/providers/openai.rs:23-31 | the contents of the choices, one per choice and in order |
| OpenAI.AnswerOfEncoded | src/providers/openai.rs:106-111 | a 2xx body holding choices answers with the first one's content, and with "" when there are none |
| OpenAI.ListModels | src/providers/openai.rs:215-222 | the fixed four-entry catalog, beginning with "gpt-4" |
| OpenAI.StreamChunk | src/providers/openai.rs:245-264 | a transport error becomes "Stream error: "; a chunk not starting with `data: ` or whose payload trims to `[DONE]` yields ""; the only other error is "JSON parse error" |
| OpenAI.StreamChunkOfEncoded | src/providers/openai.rs:254-258 | a `data: ` event holding a stream chunk yields its first choice's delta content, or "" |
| OpenAI.StreamChunkOfUndecodable | src/providers/openai.rs:254-260 | a `data: ` payload that is not a stream chunk is a "JSON parse error" |
| Claude.ClaudeProvider.constructor | src/providers/claude.rs:54-64 | the key is `ANTHROPIC_API_KEY`, or empty when it is not set; the model is "claude-3-5-sonnet-20241022" and the token limit 4096 |
| Claude.ClaudeProvider.Complete | src/providers/claude.rs:66-110 | posts one user message with the key and the API version; a transport error passes through, a non-2xx reply fails with "Claude API error: " and the body, a 2xx body gives the first content block's text |
| Claude.ClaudeProvider.Chat | src/providers/claude.rs:95-110 | one non-streaming post to the messages endpoint with the key, the API version, the model and the token limit, carrying the message itself as the one user message; the reply is read as `complete` reads it |
| Claude.ClaudeProvider.EditCode | src/providers/claude.rs:112-132 | one non-streaming post to the messages endpoint with the key, the API version, the model and the token limit, carrying the instruction-and-code prompt as the one user message; the reply is read as `complete` reads it |
| Claude.ClaudeProvider.ExplainCode | src/providers/claude.rs:134-151 | one non-streaming post to the messages endpoint with the key, the API version, the model and the token limit, carrying the explanation prompt as the one user message; the reply is read as `complete` reads it |
| Claude.ClaudeProvider.AnalyzeCode | src/providers/claude.rs:153-173 | one non-streaming post to the messages endpoint with the key, the API version, the model and the token limit, carrying the prompt naming the kind of analysis as the one user message; the reply is read as `complete` reads it |
| Claude.ClaudeProvider.CreateFile | src/providers/claude.rs:175-195 | one non-streaming post to the messages endpoint with the key, the API version, the model and the token limit, carrying the description prompt as the one user message; the reply is read as `complete` reads it |
| Claude.ClaudeProvider.SetModel | src/providers/claude.rs:207-214 | always succeeds, and `get_current_model` then returns the model set |
| Claude.ClaudeProvider.ChatStream | src/providers/claude.rs:216-248 | posts one streaming user message; past the status guard each chunk maps to its decoded text, one for one |
| Claude.MessagesResponseRoundTrip | src/providers/claude.rs:23-31 | a list of content blocks reads back from its encoding |
| Claude.AnswerOfEncoded | src/providers/claude.rs:104-109 | a 2xx body holding content blocks answers with the first one's text, and with "" when there are none |
| Claude.ListModels | src/providers/claude.rs:197-205 | the fixed five-entry catalog, beginning with the default model |
| Claude.StreamEventRoundTrip | src/providers/claude.rs:33-44 | a stream event, with or without its delta and text, reads back from its encoding |
| Claude.EventText | src/providers/claude.rs:236-239 | the event's delta text when there is one, and "" otherwise |
| Claude.StreamChunk | src/providers/claude.rs:228-244 | a transport error becomes "Stream error: "; a chunk not starting with `data: ` yields ""; the only other error is "JSON parse error" |
| Claude.StreamChunkOfEncoded | src/providers/claude.rs:233-240 | a `data: ` event holding a stream event yields its delta text |
| Claude.DoneMarkerIsAnError | src/providers/claude.rs:233-241 | `data: [DONE]` is not special: unless the parser reads it as an event it is a parse error |
| Copilot.CopilotProvider.constructor | src/providers/copilot.rs:39-49 | the token is `GITHUB_TOKEN`, or empty when it is not set; the model is "copilot" and the token limit 2048 |
| Copilot.CopilotProvider.MakeCompletionRequest | src/providers/copilot.rs:72-105 | the token is fetched first with the GitHub token; the completion post is sent exactly when that gives a token, and carries it; a failed fetch is the result, otherwise the completion's |
| Copilot.CopilotProvider.Chat | src/providers/copilot.rs:110-113 | the prompt is "User: ", the message and "\nAssistant:", and the message can be read back from it; the token is fetched first with "token " and the GitHub token, the completion post is sent exactly when that gives a token, to the completions URL with "Bearer " and that token, one completion, no streaming and no stop words; a failed fetch is the result, otherwise the completion's |
| Copilot.CopilotProvider.EditCode | src/providers/copilot.rs:115-121 | the prompt is the edit-instruction header, the instruction, the original-code marker, the code and the edited-code marker, in that order; the token is fetched first with "token " and the GitHub token, the completion post is sent exactly when that gives a token, to the completions URL with "Bearer " and that token, one completion, no streaming and no stop words; a failed fetch is the result, otherwise the completion's |
| Copilot.CopilotProvider.ExplainCode | src/providers/copilot.rs:123-129 | the prompt frames the code between the explain header and the explanation marker; the token is fetched first with "token " and the GitHub token, the completion post is sent exactly when that gives a token, to the completions URL with "Bearer " and that token, one completion, no streaming and no stop words; a failed fetch is the result, otherwise the completion's |
| Copilot.CopilotProvider.AnalyzeCode | src/providers/copilot.rs:131-137 | the prompt names the kind of analysis, then the code and the analysis marker; the token is fetched first with "token " and the GitHub token, the completion post is sent exactly when that gives a token, to the completions URL with "Bearer " and that token, one completion, no streaming and no stop words; a failed fetch is the result, otherwise the completion's |
| Copilot.CopilotProvider.CreateFile | src/providers/copilot.rs:139-145 | the prompt frames the description between the create header and the file-content marker; the token is fetched first with "token " and the GitHub token, the completion post is sent exactly when that gives a token, to the completions URL with "Bearer " and that token, one completion, no streaming and no stop words; a failed fetch is the result, otherwise the completion's |
| Copilot.CopilotProvider.SetModel | src/providers/copilot.rs:151-158 | always succeeds, and `get_current_model` then returns the model set |
| Copilot.GetCopilotToken | src/providers/copilot.rs:51-70 | a transport error passes through, a non-2xx status is "Failed to get Copilot token", and a 2xx body gives its token |
| Copilot.TokenOfEncoded | src/providers/copilot.rs:63-69 | a 2xx token reply whose body is `{"token": t}` gives t |
| Copilot.Completion | src/providers/copilot.rs:94-104 | a non-2xx completion reply fails with "Copilot API error: " and the body |
| Copilot.CompletionOfEncoded | src/providers/copilot.rs:99-104 | a 2xx completion body answers with the first choice's text, and with "" when there are none |
| Copilot.PromptMessage | src/providers/copilot.rs:111 | what it reads back from a prompt rebuilds that prompt |
| Copilot.ChatPromptRoundTrip | src/providers/copilot.rs:111 | the chat prompt gives its message back, so different messages give different prompts |
| Copilot.ListModels | src/providers/copilot.rs:147-149 | the only model is "copilot" |
| Copilot.ChatStream | src/providers/copilot.rs:160-162 | always fails with "Streaming not supported for Copilot provider" and yields no stream |
| Auth.ConfigPath | src/auth.rs:97-101 | the file is `.config/zeke/auth.json` joined to `HOME`, or to `/tmp` when `HOME` is not set, with one separator; an empty `HOME` gives the relative path |
| Auth.PlanWordCounts | src/auth.rs:128-130 | a plan whose name contains "pro" or "team" in any letter case has the Pro flag |
| Auth.HasProSubscription | src/auth.rs:128-130 | only a plan name of at least three letters can set the Pro flag, and no plan never does |
| Auth.CopilotAccess | src/auth.rs:265-278 | access holds exactly when the request gets a 200-299 status; a failed request denies it, and the check never fails |
| Auth.ProIgnoresCase | src/auth.rs:128-130 | the Pro flag does not depend on the letter case of the plan name |
| Auth.GitHubScopes | src/auth.rs:221-225 | one scope per comma-separated piece of the field, each piece trimmed |
| Auth.GitHubScopesTrimmed | src/auth.rs:221-225 | no GitHub scope starts or ends with whitespace |
| Auth.GoogleScopes | src/auth.rs:388-392 | the field split at single spaces: at least one scope, none holding a space |
| Auth.GoogleScopesRoundTrip | src/auth.rs:388-392 | joining the Google scopes with single spaces gives back the field, so nothing is trimmed or dropped |
| Auth.GitHubPoll | src/auth.rs:206-226 | `authorization_pending` keeps polling, any other error fails with "GitHub auth error: ", and an access token is granted with no expiry and the GitHub scopes |
| Auth.GooglePoll | src/auth.rs:366-393 | `authorization_pending` and `slow_down` keep polling, any other error fails with "Google auth error: ", and an access token is granted with its refresh token and the Google scopes |
| Auth.GoogleServices | src/auth.rs:410-431 | "gemini" is always listed, last; "vertex-ai" is listed exactly when its probe answers with a 2xx status |
| Auth.OpenAIUsage | src/auth.rs:454 | the usage limits are recorded exactly when the usage request answers with a 2xx status |
| Auth.PortTexts | src/auth.rs:532 | the three ports are written 11434, 11435 and 11436 |
| Auth.CandidatesInOrder | src/auth.rs:532-538 | the six addresses are `localhost` on each port, then `127.0.0.1` on each port |
| Auth.CheckOllamaInstance | src/auth.rs:556-580 | a transport error passes through, a non-2xx status is "Ollama not accessible", and a 2xx body gives its model names |
| Auth.CheckOfEncoded | src/auth.rs:564-576 | a 2xx body listing models gives their names, in order |
| Auth.AuthManager.constructor | src/auth.rs:96-111 | the configuration is the stored one, or empty, and the path is the configuration path for `HOME` |
| Auth.AuthManager.IsAuthenticated | src/auth.rs:637-647 | holds exactly when the named provider's section is present; unknown names give false |
| Auth.AuthManager.GetConfig | src/auth.rs:633-635 | the stored configuration, whose present sections are exactly the providers `is_authenticated` reports |
| Auth.AuthManager.GetProviderCredentials | src/auth.rs:649-704 | a map exactly for an authenticated provider, holding that provider's keys: GitHub's token and `copilot_enabled` only when enabled, Google's refresh token and OpenAI's organization only when set, GhostLLM's session token only when non-empty |
| Auth.AuthManager.AuthenticateGitHub | src/auth.rs:114-137 | a failed flow or user lookup changes nothing; otherwise the GitHub section holds the token, the user, Copilot access and the Pro flag of the user's plan |
| Auth.AuthManager.AuthenticateGoogle | src/auth.rs:281-298 | a failed flow or user lookup changes nothing; otherwise the Google section holds the token, the user and the detected services |
| Auth.AuthManager.AuthenticateOpenAI | src/auth.rs:433-465 | a rejected key changes nothing; otherwise the OpenAI section holds the key, the organization and the limits when the usage request succeeds |
| Auth.AuthManager.AuthenticateAnthropic | src/auth.rs:488-519 | a rejected key changes nothing; otherwise the Anthropic section holds the key and the fixed limits |
| Auth.AuthManager.AuthenticateGhostLLM | src/auth.rs:583-620 | a failed check changes nothing; otherwise the GhostLLM section holds the URL and the token, an absent token stored as "" |
| Auth.AuthManager.DetectOllama | src/auth.rs:531-553 | the first of the six addresses, in order, that answers is stored with its models and `auto_detected` set, and every earlier one failed; when none answers the result is "Ollama not detected on common ports" and nothing changes |
| Config.Get | src/config.rs:82 | a key reads as its value when present and as nil otherwise |
| Config.AsString | src/config.rs:89-95 | a string converts to itself; only strings and integers convert |
| Config.AsTable | src/config.rs:82 | only a table converts to a table |
| Config.AsUnsigned | src/config.rs:101-103 | an integer converts exactly when it is in range; a float is truncated toward zero; nothing else converts, and a result is always in range |
| Config.AsReal | src/config.rs:97-99 | exactly the integers and floats convert to a number |
| Config.MluaBool | src/config.rs:105-111 | the boolean conversion as the library performs it never fails: nil reads false, a boolean reads as itself, anything else reads true |
| Config.StrictBool | src/config.rs:105-111 | the reading the overlay evidently intends: only a boolean is a flag, and it reads as itself |
| Config.KeymapEntry | src/config.rs:116-139 | an entry that converts to a string replaces the default, and any other leaves it |
| Config.StringEntries | src/config.rs:83-86 | one string entry per key of the `api_keys` table |
| Config.WithEnv | src/config.rs:163-173 | `openai`, `claude` and `copilot` are set from `OPENAI_API_KEY`, `ANTHROPIC_API_KEY` and `GITHUB_TOKEN` when those are set, kept otherwise, and every other key is unchanged |
| Config.Config.constructor | src/config.rs:37-51 | every setting has its default: provider "openai", model "gpt-4", 2048 tokens, no streaming, auto reload, the default keymaps and server |
| Config.Config.InsertApiKeys | src/config.rs:82-87 | every `api_keys` entry is inserted when all of them convert to strings, and the loop fails otherwise; no other setting changes |
| Config.Config.SetValues | src/config.rs:89-103 | provider, model, temperature and token limit each take the table's value when it converts and keep the default otherwise |
| Config.Config.SetFlags | src/config.rs:105-111 | `stream` and `auto_reload` take what the flag reading gives and keep the default when it gives nothing |
| Config.Config.SetTables | src/config.rs:113-158 | a `keymaps` or `server` sub-table overlays the default keymaps or server settings; without one the defaults stay |
| Config.Config.LoadFromEnv | src/config.rs:163-173 | the API keys become the environment overlay of the old keys, and no other setting changes |
| Config.KeymapsFrom | src/config.rs:113-142 | the keymaps a `keymaps` table gives: each of the eight entries overlays its default |
| Config.ServerFrom | src/config.rs:144-158 | the server settings a `server` table gives: host, port below 65536 and `auto_start` each overlay the default |
| Config.FromLuaTableWith | src/config.rs:79-161 | fails exactly when an `api_keys` entry does not convert; otherwise the configuration is the defaults overlaid by the table |
| Config.FromLuaTableAsWritten | src/config.rs:79-161 | `from_lua_table` with the flags read as the library reads them |
| Config.FromLuaTable | src/config.rs:79-161 | `from_lua_table` with only booleans read as flags |
| Config.EmptyTableGivesDefaults | src/config.rs:79-161 | with only booleans read as flags, an empty table gives exactly the defaults |
| Config.EmptyTableDisablesAutoReload | src/config.rs:109-111 | as written, an empty table turns `auto_reload` off although its default is on |
| Config.ServerTableDisablesAutoStart | src/config.rs:153-155 | as written, a `server` table without `auto_start` turns it off although its default is on |
| Config.ServerTableKeepsAutoStart | src/config.rs:153-155 | with only booleans read as flags, a `server` table without `auto_start` keeps the default |
| Config.KeymapsOverlay | src/config.rs:113-142 | each of the eight keymaps the table leaves out keeps its default, and each string entry replaces it |

## Left out

- Logging (`tracing::info!` in src/auth.rs and src/discovery.rs, `eprintln!` in `handle_stream`) has no effect on any result and is not modelled.
- Sockets, HTTP clients and spawned tasks: every reply, socket outcome and command outcome is a parameter. Timeouts, the 100 ms readiness polling and the 2 s probe timeout are about time and are not modelled.
- JSON text: the model works on JSON values, and parsing is an abstract `Parser`. `serde_json` wording and `to_string` formatting are not modelled.
- Http.DecodeError: every body that fails to decode gives this one placeholder message, not the message `serde_json` would give.
- Failures while reading a reply's body (`response.text()`, `response.json()` on a broken connection) are folded into the reply parameter.
- `String::from_utf8_lossy` on stream chunks: a chunk is given as text, so invalid UTF-8 is not modelled.
- Floating point: the sampling temperatures, `Config.temperature` (modelled as a real, without rounding to `f32`) and the `UsageLimits` amounts.
- `src/lib.rs` is not part of this model: it is Lua export glue with no logic of its own.
- Discovery: `new` (the `$HOME/.zeke/sessions` path), `start_zeke_cli` (spawning and the readiness polling), `is_process_running`, `check_websocket_health`, `send_shutdown_signal` and `force_kill_session` are I/O. They enter as the `Liveness` oracle and as outcome parameters. A `read_dir` or `remove_file` error is not modelled.
- WebSocket: the writer and reader pumps are not modelled as tasks. The reader is the sequential `ReceiveLoop` over the frames it is given, and the writer's queue is a sequence. Handlers are represented by identifiers, and their effects are the recorded calls.
- WebSocket: a send on a channel whose receiver has gone is not modelled, so a connected client's send always succeeds. The request id (`Uuid::new_v4`) is a parameter.
- Providers (`src/providers/mod.rs`): the active backend is the value it was built from. The forwarded `chat`, `edit_code`, `explain_code`, `analyze_code`, `create_file`, `list_models` and `chat_stream` calls are therefore not modelled.
- Providers: `new_with_config` calls each backend constructor with a key or URL argument and `?`, but the backend files' constructors take no argument and cannot fail. The model follows the selection logic and treats each construction as infallible.
- Providers: `get_provider_type` and `is_ghostllm_enabled` return a field. They are the class fields themselves.
- ProviderRegistry.ProviderManager.Forward: the six forwarding methods are one generic function, and what each backend does with the call is not composed in.
- GhostLLM: `edit_code`, `explain_code`, `analyze_code` and `create_file` only format a prompt and call `chat`, and they are not modelled separately. Nor is the trait implementation that forwards to them.
- GhostLLM.MakeRequest: a session token that is not a valid header value makes the code fail before any post (`.parse()?`); the model sends every token, so that failure is not modelled.
- GhostLLM.MakeRequest: the scripted replies must give at least one choice wherever a 200 reply decodes, because the code panics on `choices[0]`. The panic itself is not modelled.
- Ollama: the sampling options of `generate` and `chat` hold floats. `Generate` models the endpoint, not its use, since no trait method calls it.
- Copilot: `set_model` records the model, but no request uses it, as in the code.
- Streaming.StreamHandler.NextChunk: it requires a queued chunk. On an empty queue the code waits forever, because the handler holds its own sender.
- Streaming: a buffer with capacity 0 panics in `remove(0)`, so `PushValue` and `StreamBuffer.Push` require a positive capacity.
- Terminal: `execute_command_async` (a spawned task) and `get_task_manager` (an accessor) are not modelled. The `usize` wrap-around of `next_id` is not modelled; ids are unbounded.
- Auth: the OAuth device flows, the browser launch and the interval polling are not modelled. One poll answer is modelled (`GitHubPoll`, `GooglePoll`), and the flows enter `AuthenticateGitHub` and `AuthenticateGoogle` as outcomes. The user-info requests and the key validations are outcome parameters.
- Auth.GooglePoll: `now + expires_in` is unbounded, not `u64` arithmetic that can overflow.
- Auth: `save_config` and the loading of `auth.json` are file I/O. The constructor takes the stored configuration, and a failed save, which the code reports after the update, is not modelled.
- Config: mlua's coercion of numeric strings to numbers, of floats to strings, and of non-string table keys is not modelled. Tables are keyed by strings, and only integers convert to strings.
- Config: the text of mlua's conversion error is the placeholder `ConversionError`.

## Findings

| source | as written | input that shows it | evidently intended | confidence | as-written member | corrected member |
|---|---|---|---|---|---|---|
| src/config.rs:109-111, 153-155 | `table.get::<bool>` converts by Lua truthiness, so a missing `auto_reload` or `auto_start` reads as `false` and overrides the default `true` | `from_lua_table` of an empty table gives `auto_reload = false`; a `server` table without `auto_start` gives `auto_start = false` | a missing or non-boolean flag keeps its default | not executed; depends on mlua's `FromLua for bool`, which reads nil as false | Config.FromLuaTableAsWritten (Config.EmptyTableDisablesAutoReload, Config.ServerTableDisablesAutoStart) | Config.FromLuaTable (Config.EmptyTableGivesDefaults, Config.ServerTableKeepsAutoStart) |
