# remote-claudecode: a Dafny model of the orchestration core

remote-claudecode is a Discord bot that runs coding-agent prompts for the
project bound to a channel. It has two modes:

- **SDK mode.** A prompt runs as a `ClaudeExecution`, which consumes the
  stream of SDK messages. `runPrompt` orchestrates it, with a per-thread
  queue and an active-execution table.
- **Remote mode.** A prompt goes to an `opencode serve` worker. The serve
  registry spawns one worker per project on a port in 14097-14200. The
  worker's event stream is read by `SSEClient`.

This project models the decision logic of both modes, plus the small pure
pieces around them: button routing, the setup-wizard validators and the
configuration file. Everything is immutable datatypes and pure functions
over maps and sequences. Each asynchronous callback is one atomic step.
Every outcome of I/O becomes a parameter ("oracle"): a bind probe, a fetch,
a Discord post, a process spawn, the SDK stream, the clock.

| file | module | what it models |
|---|---|---|
| wrappers.dfy | Wrappers | `Option` / `Result` |
| types.dfy | Types | the records of src/types/index.ts (`QueueSettings`, `ThreadSession`, `QueuedMessage`, `WorktreeMapping`) and the arguments of `runPrompt` |
| strings.dfy | Strings | JavaScript `split` on one character, `join`, `trim`, `endsWith`, `slice`, `${n}` |
| data_store.dfy | DataStore | the persisted store the services call; dataStore.ts is not part of this model, so only call-site meanings are given |
| claude_service.dfy | ClaudeService | `ClaudeExecution` as a fold over SDK messages; `interrupt`; the active-execution table |
| queue_manager.dfy | QueueManager | `isBusy` and `processNextInQueue`, with the behaviour their tests assert (queueManager.ts is not part of this model) |
| worktrees.dfy | Worktrees | the auto-worktree step, its description and the effective path |
| execution_service.dfy | ExecutionService | `runPrompt`, split into its synchronous start and the `onSessionInit` / `onComplete` / `onError` callbacks |
| session_manager.dfy | SessionManager | the thread-session accessors and `abortSession` |
| serve_manager.dfy | ServeManager | the serve registry: port search, spawn, stop, exit and error handlers, `waitForReady` |
| sse_client.dfy | SseClient | `SSEClient`: connection state, callback lists, classification and dispatch of events |
| remote_session.dfy | RemoteSession | what both remote handlers share: the client table, busy guard, resume policy, launch with cleanup, and the run's callbacks |
| message_handler.dfy | MessageHandler | passthrough `handleMessageCreate` |
| opencode_command.dfy | OpencodeCommand | the `/opencode` command |
| button_handler.dfy | ButtonHandler | `handleButton` and its three handlers |
| wizard.dfy | Wizard | the setup validators and the invite URL |
| config_store.dfy | ConfigStore | configuration read-modify-write over an abstract file state |

Points where the code behaves unexpectedly:

- **`runPrompt` never checks whether the thread is busy.** `setActiveExecution`
  overwrites any existing entry, and the pull-request button calls
  `runPrompt` without a guard. So "one active execution per thread" is not an
  invariant. `ExecutionService.RunPromptIgnoresBusy` and
  `ButtonHandler.PrButtonReplacesBusyExecution` state this.
  `ExecutionService.HandOffToIdleThread` shows that the queue hand-off does
  meet that caller obligation.
- **`waitForReady` with a timeout of zero or less polls zero times.** The
  loop test fails before the first fetch.
- **The remote handlers call `setSessionForThread` with a fourth argument,
  `port`.** The function takes three parameters, so JavaScript drops the
  port and the stored session has port 0.
- **Some calls of the remote handlers are not defined in
  src/services/sessionManager.ts.** These are `validateSession`,
  `createSession`, `sendPrompt`, `getSseClient`, `setSseClient` and
  `clearSseClient`. They are modelled as collaborators whose meaning is read
  off their call sites.
- **The busy guard of both remote handlers is `isConnected`.** It holds only
  once the event source is open. Right after a launch the client is still
  connecting, so the guard does not yet hold (`RemoteSession.GuardClosesOnOpen`).
- **`onComplete` advances the queue only if posting the "Done" notice
  succeeded.** Both are in the same `try` block.

## Model

| member | source | states |
|---|---|---|
| Strings.Split | src/handlers/buttonHandler.ts:10 | `split` on one character never returns an empty list, and no piece contains the separator |
| Strings.JoinSplit | src/handlers/buttonHandler.ts:10 | joining the pieces of a split with the separator gives back the original string |
| Strings.SplitJoin | src/handlers/buttonHandler.ts:10 | splitting the join of separator-free pieces gives back exactly those pieces |
| Strings.TrimEmptyIff | src/handlers/messageHandler.ts:97-98 | a prompt trims to the empty string exactly when every character is ECMAScript whitespace or a line terminator |
| Strings.NatToDecimal | src/services/serveManager.ts:125 | the rendered number is ASCII digits with no leading zero |
| Strings.DecimalRoundTrip | src/services/serveManager.ts:125 | reading back the rendered numeral gives the number |
| ClaudeService.QueryOptionsFor | src/services/claudeService.ts:39-52 | the query runs in `cwd`; `model` and `resume` are set exactly when the given values are truthy, and then equal them |
| ClaudeService.HandleStreamEvent | src/services/claudeService.ts:100-106 | a `content_block_delta` carrying a `text_delta` appends exactly the delta text; any other or null event leaves the text unchanged |
| ClaudeService.HandleAssistantMessage | src/services/claudeService.ts:111-129 | content that is not an array, or has no text block, leaves the text unchanged; otherwise the text ends with the turn text (the text blocks joined by newlines); it is unchanged iff it already ended with it, and is replaced by the turn text otherwise |
| ClaudeService.TextBlocks | src/services/claudeService.ts:115-117 | every text block's text is among the texts, every text comes from a block of type "text", and there are no more texts than blocks |
| ClaudeService.TextBlocksAppend | src/services/claudeService.ts:115-117 | `filter` then `map` keeps block order: the texts of two runs of blocks are each run's texts in turn |
| ClaudeService.AssistantIdempotent | src/services/claudeService.ts:119-128 | applying the same assistant turn twice equals applying it once |
| ClaudeService.HandleResult | src/services/claudeService.ts:134-147 | subtype `success` completes with the result text if non-empty, else the accumulated text, plus cost, duration and turns; any other subtype fails with the result text or "Query failed with subtype: …" |
| ClaudeService.DeltasThenResult | src/services/claudeService.ts:84-147 | deltas closed by a result message end with that result judged against the concatenated deltas; a `success` result with an empty `result` completes with exactly the concatenated deltas, with no no-output notice |
| ClaudeService.EndCallback | src/services/claudeService.ts:60-94 | a stream exhausted without a result completes with the accumulated text or "No output received."; a thrown error is routed to `onError` with its message |
| ClaudeService.Consume | src/services/claudeService.ts:65-95 | every consumption ends with `completed` set and exactly one terminal callback, last; every earlier callback is a session init |
| ClaudeService.ConsumeSpec | src/services/claudeService.ts:65-95 | consumption equals the reference reading: the messages before the first result are handled in order; each init sets the session id and fires `onSessionInit` with it; text updates fold into the accumulator; nothing after the result is read; the terminal callback is decided by that result, or by how the stream ended |
| ClaudeService.DeltasConcatenate | src/services/claudeService.ts:100-106 | a run of stream events accumulates exactly the concatenation of its text deltas |
| ClaudeService.DeltaStreamCompletes | src/services/claudeService.ts:84-106 | a delta-only stream that ends without a result fires exactly one `onComplete`, with the concatenated deltas or the no-output notice |
| ClaudeService.Interrupt | src/services/claudeService.ts:152-162 | `interrupt` is true exactly when a query exists and its interrupt call resolves |
| ClaudeService.SetActiveExecution | src/services/claudeService.ts:169-171 | the thread's entry becomes the new execution whatever it held; no other thread's entry changes |
| ClaudeService.ClearActiveExecution | src/services/claudeService.ts:177-179 | the thread has no entry afterwards; no other thread's entry changes |
| ClaudeService.InterruptExecution | src/services/claudeService.ts:181-187 | true exactly when the thread has an entry, it has a query, and the interrupt call succeeds |
| QueueManager.IsBusy | src/__tests__/queueManager.test.ts:22-42 | busy iff an entry exists and has not completed |
| QueueManager.ProcessNextInQueue | src/__tests__/queueManager.test.ts:46-92 | a paused or empty queue changes nothing and starts nothing; otherwise the oldest prompt is popped once and dispatched with the same channel, thread and parent; other threads' queues and the rest of the store are untouched |
| QueueManager.AdvanceIsFifo | src/__tests__/queueManager.test.ts:58-79 | successive advances dispatch the queued prompts in the order they were queued |
| Worktrees.Description | src/services/executionService.ts:44 | counting UTF-16 code units as `slice` and `length` do: a prompt of at most 50 units is its own description; a longer one keeps a proper prefix of 50 units (49 when the 50th is half of a surrogate pair) followed by "..." |
| Worktrees.DescriptionBmp | src/services/executionService.ts:44 | on a prompt without astral characters: at most 50 characters kept whole, else the first 50 characters and "..." |
| Worktrees.DescriptionAstral | src/services/executionService.ts:44 | on a prompt of astral characters only, such as emoji: at most 25 kept whole, else the first 25 and "..." |
| Worktrees.EffectivePath | src/services/executionService.ts:78 | the mapped worktree path when a mapping exists, else the project path |
| Worktrees.EnsureWorktree | src/services/executionService.ts:27-76 | an existing mapping is kept; without one, a mapping is recorded exactly when the channel's project has auto-worktree on and creation succeeded, and it records the new branch, path, project, description and time; only this thread's mapping can change |
| ExecutionService.ResumeSessionId | src/services/executionService.ts:124-127 | the resume id is the stored session id iff a session is stored and its path is the effective path |
| ExecutionService.AfterFailure | src/services/executionService.ts:230-236 | with `continueOnFailure` the queue advances; otherwise the thread's queue is emptied and nothing runs; only queues change |
| ExecutionService.RunPrompt | src/services/executionService.ts:15-161 | without a project nothing changes; otherwise the query runs on the effective path with the parent channel's preferred model (when one is set) and its execution is registered (busy) with the timer set; `freshContext` clears the stored session so nothing is resumed; otherwise the resume id follows the same-path rule; a query that cannot start leaves the thread unregistered, and without `continueOnFailure` empties its queue and runs nothing; other threads' entries and sessions are untouched |
| ExecutionService.RunPromptStore | src/services/executionService.ts:15-262 | only mappings, sessions and queues can change; queues only when the query cannot start, sessions only under `freshContext`; a start failure with `continueOnFailure` dispatches and pops the oldest queued prompt unless the queue is paused or empty |
| ExecutionService.OnSessionInit | src/services/executionService.ts:163-174 | the thread's session becomes the new id on the effective path, with port 0 and created time equal to last-used time; nothing else changes |
| ExecutionService.OnComplete | src/services/executionService.ts:176-215 | the timer is cleared and the thread's entry removed before the queue is advanced; the advance happens only if the completion notice was posted |
| ExecutionService.OnError | src/services/executionService.ts:217-239 | the timer is cleared, the entry removed, and the failure policy applied |
| ExecutionService.HandOffToIdleThread | src/services/executionService.ts:176-239 | whatever a terminal callback dispatches is the oldest queued prompt, for the same thread and parent, on a thread that is no longer busy |
| ExecutionService.RunPromptIgnoresBusy | src/services/executionService.ts:135-136 | on a busy thread `runPrompt` still starts and overwrites the registered execution |
| SessionManager.GetSessionForThread | src/services/sessionManager.ts:8-12 | exactly the stored session's id and path, or nothing when none is stored |
| SessionManager.SetSessionForThread | src/services/sessionManager.ts:14-24 | stores the session with port 0 and equal creation and last-use times; nothing else changes |
| SessionManager.SetThenGetSession | src/__tests__/sessionManager.test.ts:55-80 | reading back a session just set gives its id and path |
| SessionManager.UpdateSessionLastUsed | src/services/sessionManager.ts:26-28 | only the thread's last-use time moves, and only if it has a session |
| SessionManager.ClearSessionForThread | src/services/sessionManager.ts:30-32 | the thread has no session afterwards; nothing else changes |
| SessionManager.AbortSession | src/services/sessionManager.ts:38-40 | exactly the result of `interruptExecution` |
| ServeManager.FindPortFrom | src/services/serveManager.ts:28-36 | from a start port upwards: the lowest port no instance holds and the probe reports free, or the no-port error when none remains |
| ServeManager.FindAvailablePort | src/services/serveManager.ts:5-36 | the lowest usable port in 14097-14200; fails with "No available ports in range 14097-14200" iff no port qualifies |
| ServeManager.SpawnServe | src/services/serveManager.ts:53-93 | a tracked project gets its port back and nothing is spawned; otherwise the instance is registered on the lowest usable port, which is in range and held by no other instance; without a port nothing changes |
| ServeManager.GetPort | src/services/serveManager.ts:95-97 | the tracked port of the path, or nothing |
| ServeManager.SpawnIdempotent | src/__tests__/serveManager.test.ts:67-77 | a second spawn for the same path returns the first spawn's port and spawns nothing |
| ServeManager.StopServe | src/services/serveManager.ts:99-108 | an unknown path gives false and changes nothing; otherwise that process is killed and only its entry removed |
| ServeManager.StopAll | src/services/serveManager.ts:128-133 | every tracked process is killed and the registry left empty |
| ServeManager.StopAllEmpty | src/__tests__/serveManager.test.ts:162-165 | on an empty registry nothing is killed |
| ServeManager.OnExit | src/services/serveManager.ts:78-86 | the entry is removed only when it is still tracked and the liveness probe fails |
| ServeManager.ExitProbeDecides | src/services/serveManager.ts:78-86 | after an exit the path is still tracked iff it was tracked and still responds |
| ServeManager.OnProcessError | src/services/serveManager.ts:88-90 | the entry is removed unconditionally; other paths are untouched |
| ServeManager.ValidPreserved | src/services/serveManager.ts:53-133 | spawn, stop, stop-all, exit and error all keep every tracked port in range and distinct |
| ServeManager.GetAllInstances | src/services/serveManager.ts:135-140 | one listing entry for each tracked project, with its port, and no other entries |
| ServeManager.ListingMeaning | src/services/serveManager.ts:95-140 | a project is listed with port n exactly when `getPort` gives n, so once per project; over a valid registry listed ports are distinct and in range |
| ServeManager.WaitForReady | src/services/serveManager.ts:110-126 | success exactly at the first ok poll made before the deadline; otherwise fails with "Service at port P failed to become ready within Tms" after only failed polls |
| SseClient.Connect | src/services/sseClient.ts:14-16 | the event source listens on `{baseUrl}/event` and is not yet connected |
| SseClient.TransportState | src/services/sseClient.ts:51-53 | the client is connected exactly when its source exists and is open |
| SseClient.Disconnect | src/services/sseClient.ts:44-49 | no event source and not connected afterwards |
| SseClient.ConnectionLifecycle | src/services/sseClient.ts:44-53 | not connected before `connect`; `disconnect` is idempotent and harmless on a fresh client |
| SseClient.OnPartUpdated | src/services/sseClient.ts:32-34 | the callback is appended to the part callbacks, keeping registration order |
| SseClient.OnSessionIdle | src/services/sseClient.ts:36-38 | the callback is appended to the idle callbacks |
| SseClient.OnError | src/services/sseClient.ts:40-42 | the callback is appended to the error callbacks |
| SseClient.Classify | src/services/sseClient.ts:18-73 | a part event with a text part dispatches that part; an idle event with a non-empty session id dispatches the id; an unparseable payload is a parse error carrying the JSON error; either event whose `properties` is absent or `null` is a parse error carrying the TypeError for reading `part` or `sessionID` of `undefined` or `null`, in V8's wording; everything else is ignored |
| SseClient.FanOut | src/services/sseClient.ts:65-70 | one call per registered callback, in registration order, with the same argument |
| SseClient.HandleMessage | src/services/sseClient.ts:18-73 | an ignored message calls nothing; otherwise every callback of the matching list is called once, in order |
| SseClient.HandleTransportError | src/services/sseClient.ts:27-77 | a transport error reaches every error callback, with its message or "SSE connection error" |
| RemoteSession.ResolveSession | src/handlers/messageHandler.ts:139-152 | the stored session is reused (last use moved) iff it is on the effective path and validates; otherwise a new session is created and stored over the old one; whenever a session id results, the stored session is that id on the effective path |
| RemoteSession.ResumeAfterCreate | src/commands/opencode.ts:125-138 | a session just created is reused by the next launch on the same path that validates it, and never by a launch on another path |
| RemoteSession.RunClient | src/handlers/messageHandler.ts:154-206 | a run's client listens on `http://localhost:{port}/event`, is still connecting, and has exactly one part, idle and error callback |
| RemoteSession.Fail | src/handlers/messageHandler.ts:229-242 | the catch drops the thread's client, whichever it is, and stops the timer |
| RemoteSession.LaunchOnReadyWorker | src/handlers/messageHandler.ts:139-242 | once the worker is ready, the launch succeeds exactly when a session id was obtained and the prompt was accepted, and then registers a fresh client on that port for the thread with the timer running; any failure drops the thread's client but keeps the resolved session store |
| RemoteSession.LaunchRun | src/handlers/messageHandler.ts:133-242 | the worker is spawned or reused; no port, a worker that never becomes ready, a failed session creation or a rejected prompt each end in the catch with that error and the thread's client dropped; a successful launch sends the prompt on the resolved session, on the worker tracked for the effective path, with a fresh client registered for the thread and the timer running; only thread sessions can change in the store, and other threads' clients are untouched |
| RemoteSession.GuardClosesOnOpen | src/handlers/messageHandler.ts:91-95 | right after a launch the busy guard is not yet closed; it closes once the transport reports the source open |
| RemoteSession.OnPartText | src/handlers/messageHandler.ts:158-160 | a part update replaces the run's text with the part's text |
| RemoteSession.OnIdle | src/handlers/messageHandler.ts:162-192 | idle stops the timer; once the completion notice is posted the thread's client is dropped, otherwise the table is unchanged |
| RemoteSession.OnStreamError | src/handlers/messageHandler.ts:194-206 | a stream error only stops the timer; the client stays registered |
| RemoteSession.RunClientDispatch | src/services/sseClient.ts:55-77 | a run's client turns each non-ignored payload into exactly one call of the matching callback |
| RemoteSession.FeedKeepsLastPart | src/handlers/messageHandler.ts:158-160 | replace, not append: after any stream the run's text is the last text part's text, or its earlier text if there was none |
| RemoteSession.FeedClients | src/handlers/messageHandler.ts:162-206 | a stream drops the thread's client iff it contains an idle event and completion notices get posted; stream errors never drop it |
| MessageHandler.HandleMessageCreate | src/handlers/messageHandler.ts:16-243 | bot, system, non-thread, passthrough-off and parentless messages are ignored with nothing changed; a missing project replies and changes nothing; after the auto-worktree step, a connected client only draws the reaction; an empty trimmed prompt or an unsent status starts nothing; otherwise the trimmed prompt is launched on the effective path |
| MessageHandler.BusyStartsNothing | src/handlers/messageHandler.ts:91-95 | on a busy thread no worker is spawned and no session or client changes |
| MessageHandler.StartedOnEffectivePath | src/handlers/messageHandler.ts:89-152 | a launched prompt is the non-empty trimmed message; it runs on the thread's worktree when mapped, else on the project; the stored session is then the one used, on that path |
| MessageHandler.AutoWorktreeDescription | src/handlers/messageHandler.ts:48-54 | an auto-created mapping is described from the trimmed prompt, not the raw message, by the same 50-code-unit rule as `runPrompt` |
| OpencodeCommand.GetParentChannelId | src/commands/opencode.ts:19-25 | in a thread, its parent, falling back to the channel id when the parent is null; elsewhere the channel id |
| OpencodeCommand.Execute | src/commands/opencode.ts:36-229 | a missing project replies before any thread is requested and changes nothing; a thread that cannot be created, a connected client ("Already running") or an unsent status starts nothing; otherwise the prompt is launched on the mapped worktree or the project |
| OpencodeCommand.CommandResumePolicy | src/commands/opencode.ts:125-138 | the launched prompt uses the stored session exactly when it is on the same path and validates, else the created one; either way the stored session is the one used, on that path |
| ButtonHandler.ParseCustomId | src/handlers/buttonHandler.ts:10 | the action is the text before the first '_' (or all of it); a thread id exists iff the id has a '_', and runs to the next '_' or the end; later segments are dropped |
| ButtonHandler.CustomIdRoundTrip | src/handlers/buttonHandler.ts:10 | `action_threadId`, optionally followed by '_' and more, parses back to that action and thread id when neither contains '_' |
| ButtonHandler.RouteButton | src/handlers/buttonHandler.ts:12-31 | a missing or empty thread id is an invalid button; `interrupt`, `delete` and `pr` route to their handler with that thread id; any other action is unknown |
| ButtonHandler.ButtonsRouteBack | src/services/executionService.ts:62-88 | the interrupt, delete and PR buttons the bot posts route back to their own handler with the same thread id, for any non-empty thread id without '_' |
| ButtonHandler.HandleInterrupt | src/handlers/buttonHandler.ts:34-44 | the sent reply exactly when `abortSession` succeeds, the failure reply otherwise |
| ButtonHandler.InterruptReplyOnlyFromResult | src/handlers/buttonHandler.ts:37-43 | the reply depends on nothing but the boolean `abortSession` returns |
| ButtonHandler.InterruptNeedsQuery | src/handlers/buttonHandler.ts:34-44 | a thread without an entry, or whose execution has no query, is never reported interrupted |
| ButtonHandler.HandleWorktreeDelete | src/handlers/buttonHandler.ts:46-71 | no mapping: not-found reply, nothing removed; otherwise the worktree is removed only if it exists, the mapping is dropped unless that removal threw, and only this thread's mapping changes |
| ButtonHandler.DeleteLeavesStaleButtons | src/handlers/buttonHandler.ts:46-97 | after a delete whose removal did not throw, another delete and the pull-request button answer that no mapping exists and change nothing; after a removal that threw, a retry finds the mapping again |
| ButtonHandler.HandleWorktreePR | src/handlers/buttonHandler.ts:73-97 | no mapping: not-found reply, nothing runs; in a thread with a parent, the fixed PR prompt goes through `runPrompt` on that thread; elsewhere nothing runs |
| ButtonHandler.PrButtonReplacesBusyExecution | src/handlers/buttonHandler.ts:89-91 | on a busy thread a started PR run replaces the registered execution |
| Wizard.MatchDigitsMeaning | src/setup/wizard.ts:10 | the pattern `\d{lo,hi}` anchored at both ends matches exactly the strings of lo to hi ASCII digits |
| Wizard.SnowflakeMeaning | src/setup/wizard.ts:10 | `/^\d{17,20}$/` accepts exactly the strings of 17 to 20 ASCII digits |
| Wizard.ValidateApplicationId | src/setup/wizard.ts:8-12 | empty: "Application ID is required"; otherwise accepted iff 17-20 ASCII digits, with the invalid-format message otherwise |
| Wizard.ValidateGuildId | src/setup/wizard.ts:20-24 | empty: "Guild ID is required"; otherwise accepted iff 17-20 ASCII digits |
| Wizard.GuildAgreesWithApplication | src/setup/wizard.ts:8-24 | the two id validators accept the same inputs, and agree on every non-empty input |
| Strings.Utf16Length | src/setup/wizard.ts:16 | `length` counts UTF-16 code units: between one and two per character |
| Strings.Utf16LengthBmp | src/setup/wizard.ts:16 | without astral characters the length is the number of characters |
| Strings.Utf16LengthAstral | src/services/executionService.ts:44 | a string of astral characters only has twice as many code units as characters |
| Strings.Utf16LengthAppend | src/services/executionService.ts:44 | the code-unit length of a concatenation is the sum of the lengths |
| Strings.Utf16PrefixMeaning | src/services/executionService.ts:44 | the whole-character prefix kept by `slice(0, n)` is a prefix of at most n units that cannot take the next character, and the whole string when it already fits |
| Strings.Utf16PrefixBmp | src/services/executionService.ts:44 | without astral characters `slice(0, n)` keeps the first n characters |
| Strings.Utf16PrefixAstral | src/services/executionService.ts:44 | on astral characters only, `slice(0, n)` keeps n / 2 whole characters |
| Wizard.ValidateToken | src/setup/wizard.ts:14-18 | empty: "Bot token is required"; fewer than 50 UTF-16 code units: "too short"; anything else is accepted |
| Wizard.TokenLengthBounds | src/setup/wizard.ts:14-18 | a token of 50 or more characters always passes; a non-empty one of fewer than 25 characters is always too short |
| Wizard.InviteUrl | src/setup/wizard.ts:125 | the fixed OAuth prefix, the client id verbatim, then the fixed permissions-and-scope suffix |
| Wizard.InviteUrlRoundTrip | src/setup/wizard.ts:125 | the client id read back out of an invite URL is the one put in, and any URL of that shape is the invite URL of the id it carries |
| ConfigStore.LoadConfig | src/services/configStore.ts:34-45 | a missing or unparseable file loads as the empty configuration; otherwise its contents |
| ConfigStore.SaveConfig | src/services/configStore.ts:47-50 | loading after a save gives exactly what was saved |
| ConfigStore.SetBotConfig | src/services/configStore.ts:56-60 | reading the bot part back gives the bot just set; the port part is kept |
| ConfigStore.SetPortConfig | src/services/configStore.ts:66-70 | reading the port part back gives the ports just set; the bot part is kept |
| ConfigStore.HasBotConfig | src/services/configStore.ts:72-75 | true iff a bot part exists with non-empty token, client id and guild id |
| ConfigStore.ClearBotConfig | src/services/configStore.ts:77-81 | the bot part is gone and `hasBotConfig` is false; the port part is kept |
| ConfigStore.SettersCommute | src/services/configStore.ts:56-81 | setting bot and ports commutes; the last bot setting wins; clearing after setting equals clearing |
| ConfigStore.SetMakesConfigured | src/services/configStore.ts:56-75 | after storing a bot part, `hasBotConfig` holds iff its three fields are non-empty |
| ConfigStore.UnparseableIsReplaced | src/services/configStore.ts:39-70 | a file that does not parse is overwritten by the next setter, keeping only the written part |

## Left out

- Discord rendering: embeds, button rows, message edits, the spinner and its
  refresh ticks, and reply, followUp and defer calls. The outcome datatypes
  only name the reply a decision leads to.
- The progress timer's ticks. A run records only whether its timer is set.
- Process spawn and kill, TCP bind probes, `fetch`, `EventSource`,
  `JSON.parse`, the SDK `query`, and git worktree operations. Each is a
  parameter giving its outcome.
- `getAvailableModels`: it only forwards to the SDK and returns `[]` on error.
- Server-sent-event wire framing, which the `eventsource` library does. The
  client sees only decoded payloads or parse failures.
- Real time. Timestamps are parameters, and `waitForReady` runs against an
  abstract clock sequence. Branch-name generation is not modelled.
- Concurrency. Each callback is one atomic step. Three races are possible
  in the code and are not claimed either way:
  - two concurrent `spawnServe` calls for one path can both pass the "already
    tracked" check;
  - a stale exit handler, keyed by path, can evict a newer instance;
  - an old run's idle callback can clear a newer run's client.
- The test in src/__tests__/serveManager.test.ts:89-101 expects an exit to
  remove the instance at once. The code re-probes first, and the model follows
  the code.
- `interactionHandler.ts` routing and the interactive `runSetupWizard` flow.
- Filesystem details of the configuration file, such as directory creation
  and JSON formatting. A JSON value that parses but is not an object is also
  not modelled.
- SseClient.FanOut: assumes no callback throws. In the code, a callback that
  throws stops the `forEach`, so later callbacks of that list are not called.
- SseClient.HandleMessage: assumes the part and idle callbacks do not throw.
  In the code, a throw from one stops the fan-out. The listener's `catch` then
  sends "Failed to parse SSE event: " plus that error to every error callback,
  although the event itself was well formed.
- SseClient.HandleTransportError: assumes the error callbacks do not throw.
  In the code, one that throws stops the remaining error callbacks.
- ClaudeService.Consume: assumes the callbacks do not throw. In the code, a
  throw inside `onComplete` would also reach `onError` through `start`'s
  catch.
- ServeManager.GetAllInstances: gives a set, because the listing order
  (Map insertion order) is not modelled.
- RemoteSession.LaunchRun: reduces `waitForReady` to whether it resolved
  within the default 10000 ms. The poll loop itself is `ServeManager.WaitForReady`.
- RemoteSession.LaunchRun: a failed or rejected Discord status edit is not
  modelled, because `updateStreamMessage` swallows every error.
- OpencodeCommand.Execute: assumes the first `interaction.reply` succeeds.
  The code does not catch a failure there.
- ButtonHandler.HandleWorktreePR: models a thread whose `parentId` is null as
  running nothing. The code would pass null to `runPrompt`, whose project
  lookup lives in the unmodelled store.
- ButtonHandler.HandleWorktreePR: has no "Failed to start PR creation" reply.
  The modelled `runPrompt` reports its failures as outcomes rather than
  throwing.
- Worktrees.Description: when the 50th code unit is the first half of a
  surrogate pair, JavaScript's `slice` keeps that lone high surrogate. A Dafny
  string cannot hold one, so the model stops before that character (49 units).
- ExecutionService.RunPrompt: does not model the branch-name lookup
  (`getCurrentBranch`) or the header text; they only feed the display.
