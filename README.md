# Tales of Tasern — a verified model of the story engine

Tales of Tasern is an interactive-fiction client: a player arrives in the
world of Tasern, creates a character, and then takes turns with a narrator
model that continues the story. This project is a Dafny model of the
deterministic core of that client and the rules around it:

- the **session store** of saved stories, with one active story that every
  mutator rewrites by id, and an inventory and spell list that behave as sets
  keyed by name;
- the **generation fallback chain** of the story screen. The in-browser model
  runs first when it is ready, preferred and not declined. The server route
  runs next. A fixed in-fiction error text is written when both fail. Streamed
  chunks accumulate into the target message and touch nothing else;
- **prompt and context assembly**:
  - on the server, role-prefixed history lines, the optional wallet sentence,
    and the "start"/"continue" prompt;
  - in the browser, the chat message list with the system prompt first and the
    prompt last;
- **backend selection and probe interpretation**:
  - the server's choice between a local Ollama service and the hosted Anthropic
    model;
  - the browser's choice of local model and its newline-delimited JSON reader;
  - the desktop shell's Ollama commands and the hook over them;
  - the priority-ordered setup step;
- **small state machines**:
  - the persisted in-browser model store and its `initialize` guard;
  - the character-creation wizard;
  - the intro pager;
- **admin authentication**:
  - the 32-bit session-token hash and its base-36 rendering;
  - the password check;
  - the session cookie;
  - the login route's 400/401/200/500 decision chain.

Everything the source does through the network, a child process, a clock,
randomness or a parser is an input. That covers probes, replies, chunk
sequences, process outcomes, the current time, fresh UUIDs, and a JSON oracle
that gives the `response` field of a line. The model is sequential.

Each source file is one module. Stores and components whose fields the source
updates in place are classes with `modifies` clauses. Their methods are tied
to pure functions of the old state, and the promised properties are proved
about those functions. Pure source code is functions and lemmas.

| module | file | source |
|---|---|---|
| `Common` | common.dfy | Option/Result, JavaScript `join`, `split`, `filter(Boolean)`, `trim`, chunk concatenation |
| `StoryStore` | story_store.dfy | src/state/storyStore.ts |
| `StoryInterface` | story_interface.dfy | src/components/StoryInterface.tsx |
| `StoryApi` | story_route.dfy | src/app/api/story/route.ts |
| `WebLLMHook` | webllm_hook.dfy | src/hooks/useWebLLM.ts |
| `WebLLMStore` | webllm_store.dfy | src/state/webllmStore.ts |
| `Llm` | llm.dfy | src/lib/llm.ts (and the `serverAvailable` flag of src/app/api/llm/status/route.ts) |
| `LocalOllama` | local_ollama.dfy | src/hooks/useLocalOllama.ts |
| `UseTauri` | use_tauri.dfy | src/hooks/useTauri.ts |
| `TauriCommands` | tauri_commands.dfy | src-tauri/src/lib.rs |
| `OllamaSetup` | ollama_setup.dfy | src/components/OllamaSetup.tsx |
| `CharacterCreation` | character_creation.dfy | src/components/CharacterCreation.tsx |
| `IntroSequence` | intro_sequence.dfy | src/components/IntroSequence.tsx |
| `Admin` | admin.dfy | src/lib/admin.ts |
| `AdminLogin` | admin_login.dfy | src/app/api/admin/login/route.ts |

Long fixed texts are carried as parameters: a `RouteTexts` or `PromptTexts`
record, a `system` string, or a `Tables` record for the character-creation
cards. The literal texts live in functions without contracts:

- `StoryApi.Texts`
- `StoryInterface.ClientTexts`
- `WebLLMHook.SystemPrompt`
- `IntroSequence.PageText`
- `CharacterCreation.Origins`, `CharacterCreation.Beliefs` and `CharacterCreation.Factions`, which `CharacterCreation.CreationTables` puts together

The proofs therefore hold for any texts, and the application instantiates
them with the source's own.

## Model

| member | source | states |
|---|---|---|
| Common.OrDefault | src/lib/llm.ts:31-32 | `value \|\| default` on an environment string: the value when it is set and non-empty, the default otherwise |
| Common.ConcatAppend | src/hooks/useWebLLM.ts:175-179 | concatenating a stream of chunks distributes over splitting the stream in two |
| Common.ConcatSnoc | src/hooks/useWebLLM.ts:175-179 | appending chunks one at a time, as every accumulation loop does, builds their in-order concatenation |
| Common.Split | src/hooks/useLocalOllama.ts:92 | `split` always yields at least one part (an empty chunk gives one empty part) |
| Common.SplitJoin | src/hooks/useLocalOllama.ts:92 | splitting a chunk on the newline loses nothing: joining the parts with the separator gives the chunk back |
| Common.SplitNoSeparator | src/hooks/useLocalOllama.ts:92 | no line produced by the split contains a newline |
| Common.Trim | src/components/StoryInterface.tsx:236 | the trimmed text is a slice of the input with only whitespace outside it, and it neither starts nor ends with JavaScript whitespace: only the leading and trailing whitespace is removed |
| Common.TrimEmpty | src/components/StoryInterface.tsx:234 | `!input.trim()` holds exactly when every character of the input is whitespace |
| Common.TrimTwice | src/components/StoryInterface.tsx:236 | trimming is idempotent, so the stored player action is already trimmed |
| StoryStore.AddByNameSpec | src/state/storyStore.ts:177-179 | an existing name leaves the list unchanged, otherwise `{name, description}` is appended at the end; afterwards the name is present, a repeated add is a no-op, and names stay unique |
| StoryStore.RemoveByNameSpec | src/state/storyStore.ts:197 | removal leaves no entry with that name and keeps exactly the other entries |
| StoryStore.RemoveByNameAppend | src/state/storyStore.ts:197 | removal distributes over concatenation, so the kept entries stay in their order |
| StoryStore.RemoveAbsentName | src/state/storyStore.ts:197 | removing a name that no entry carries changes nothing |
| StoryStore.RemoveByNameTwice | src/state/storyStore.ts:197 | a second removal of the same name changes nothing |
| StoryStore.AddThenRemove | src/state/storyStore.ts:167-203 | adding a name and then removing it leaves what removing it alone leaves |
| StoryStore.RemoveKeepsUnique | src/state/storyStore.ts:197 | removal keeps names unique |
| StoryStore.ApplyFrame | src/state/storyStore.ts:117-241 | every update keeps the story's id and creation time; item updates touch only the inventory and spell updates only the spells; only the messages update changes messages |
| StoryStore.RewriteByIdSpec | src/state/storyStore.ts:121-125 | rewriting by id keeps the length and the order of ids, rewrites every story carrying the id and leaves every other story as it was |
| StoryStore.RewriteByIdLength | src/state/storyStore.ts:121-125 | rewriting by id never adds or drops a story |
| StoryStore.RewriteMissingId | src/state/storyStore.ts:121-125 | rewriting an id that no story carries (as after loading an unknown id) changes nothing |
| StoryStore.RemoveByIdSpec | src/state/storyStore.ts:110-115 | deletion removes every story with that id and keeps exactly the others |
| StoryStore.RemoveByIdAppend | src/state/storyStore.ts:112 | deletion distributes over concatenation, so the kept stories stay in their order and keep their multiplicity |
| StoryStore.FindById | src/state/storyStore.ts:83 | the story found is the first one carrying the id; nothing is found exactly when no story carries the id |
| StoryStore.Store.constructor | src/state/storyStore.ts:77-78 | the store starts with no stories and no active story |
| StoryStore.Store.GetActiveStory | src/state/storyStore.ts:80-84 | null when no id is active (or it is empty) or no story carries it; otherwise the first stored story with the active id |
| StoryStore.Store.CreateStory | src/state/storyStore.ts:86-104 | prepends a story with no messages, empty memory, extraction count 0 and equal creation and update times; makes it active and returns its id |
| StoryStore.Store.LoadStory | src/state/storyStore.ts:106-108 | makes the id active without checking it and leaves the stories alone |
| StoryStore.Store.DeleteStory | src/state/storyStore.ts:110-115 | removes the stories with that id; clears the active id only when it was that id |
| StoryStore.Store.ClearActiveStory | src/state/storyStore.ts:163-165 | clears the active id and leaves the stories alone |
| StoryStore.Store.UpdateActive | src/state/storyStore.ts:117-127 | no change without an active story; otherwise only the stories carrying the active id are rewritten |
| StoryStore.Store.SetActiveMessages | src/state/storyStore.ts:117-127 | without an active story nothing changes; otherwise the active story gets the messages and the update time |
| StoryStore.Store.UpdateMemory | src/state/storyStore.ts:129-139 | without an active story nothing changes; otherwise the active story gets the memory and the update time |
| StoryStore.Store.UpdateTitle | src/state/storyStore.ts:141-149 | without an active story nothing changes; otherwise the active story gets the title |
| StoryStore.Store.SetMessageCountAtLastExtraction | src/state/storyStore.ts:151-161 | without an active story nothing changes; otherwise the active story gets the count |
| StoryStore.Store.AddItemToActive | src/state/storyStore.ts:167-185 | without an active story nothing changes; otherwise the item is added by name to the active story's inventory |
| StoryStore.Store.RemoveItemFromActive | src/state/storyStore.ts:187-203 | without an active story nothing changes; otherwise every inventory entry with that name is dropped |
| StoryStore.Store.AddSpellToActive | src/state/storyStore.ts:205-223 | without an active story nothing changes; otherwise the spell is added by name to the active story's spells |
| StoryStore.Store.RemoveSpellFromActive | src/state/storyStore.ts:225-241 | without an active story nothing changes; otherwise every spell with that name is dropped |
| StoryInterface.ContinuePromptInjective | src/components/StoryInterface.tsx:261-269 | different player actions always give different continue prompts |
| StoryInterface.WithContent | src/components/StoryInterface.tsx:150-154 | the per-message update keeps the length, sets the content of the messages with the target id and leaves every other message as it was |
| StoryInterface.WithContentOverwrite | src/components/StoryInterface.tsx:150-154 | only the last write to the target's content is visible |
| StoryInterface.StreamedSnoc | src/components/StoryInterface.tsx:142-155 | after each further chunk the target holds the concatenation of every chunk so far |
| StoryInterface.SameExceptTrans | src/components/StoryInterface.tsx:166-212 | "differs only in the target's content" composes across successive updates |
| StoryInterface.SmartMessagesFrame | src/components/StoryInterface.tsx:166-212 | whatever the backends do, generation changes nothing but the content of the target message |
| StoryInterface.SmartMessagesBothFail | src/components/StoryInterface.tsx:183-203 | when the in-browser model is skipped or fails and the server fails, the target holds exactly the error text, whatever partial text was streamed |
| StoryInterface.SmartMessagesServerText | src/components/StoryInterface.tsx:183-203 | a successful server stream leaves the target holding exactly the server's text, even after a failed in-browser attempt wrote some |
| StoryInterface.ApiHistory | src/components/StoryInterface.tsx:124-127 | the posted history has one `{role, content}` entry per message, in order |
| StoryInterface.HookHistory | src/components/StoryInterface.tsx:85-88 | the history passed to the in-browser model has one `{role, content}` entry per message, in order |
| StoryInterface.ServerRequestPrompt | src/components/StoryInterface.tsx:184-189 | a "start" request carries no player action, so the server uses its opening prompt; a "continue" request carries the composed prompt, which the server embeds as the player's action |
| StoryInterface.ShouldOfferStates | src/components/StoryInterface.tsx:276-281 | the offer is made exactly in the idle, checking and error states of an undeclined model, never while loading or unsupported |
| StoryInterface.ServerAvailableAfterCheckSpec | src/components/StoryInterface.tsx:53-71 | a failed status fetch leaves the server unavailable; after a successful one the server counts as available exactly when a story request would find a backend for the same environment and probe |
| StoryInterface.NoAIWarningMeansNoBackend | src/components/StoryInterface.tsx:342 | the "no AI" warning is shown only when the in-browser model is not ready and the server route would fail to choose a backend |
| StoryInterface.Screen.constructor | src/components/StoryInterface.tsx:34-39 | an empty transcript and input, not loading, not started, no source |
| StoryInterface.Screen.SetInput | src/components/StoryInterface.tsx:430 | the input field's text is replaced and nothing else changes |
| StoryInterface.Screen.GenerateWithWebLLM | src/components/StoryInterface.tsx:82-107 | streams the in-browser chunks into the target; true and the in-browser label exactly when no error is thrown; a failure keeps the streamed text and is reported as false |
| StoryInterface.Screen.GenerateWithServer | src/components/StoryInterface.tsx:110-164 | a failed fetch or a non-ok response is false before anything is written; otherwise labels the source and streams the body into the target, false if a read throws |
| StoryInterface.Screen.SmartGenerate | src/components/StoryInterface.tsx:166-212 | the in-browser model is tried exactly under the three-flag guard; the server is called exactly when that was skipped or failed; both failing leaves the error text |
| StoryInterface.Screen.StartStory | src/components/StoryInterface.tsx:214-230 | the transcript becomes one empty narrator message, generated into with the opening prompt and no history; the in-browser model is called exactly when it is ready, preferred and not declined, and the server exactly when that call was skipped or failed; loading ends |
| StoryInterface.Screen.SubmitAction | src/components/StoryInterface.tsx:232-273 | ignored when the trimmed input is empty or a reply is in flight; otherwise appends the trimmed player message and an empty narrator message, clears the input and generates into the new message with the transcript before it as history, calling the in-browser model exactly when it is eligible and the server exactly when that call was skipped or failed |
| StoryInterface.SubmitKeepsTranscript | src/components/StoryInterface.tsx:242-271 | after a submitted action every earlier message and the player's message are intact, and only the new narrator message can differ |
| StoryApi.SystemContextSpec | src/app/api/story/route.ts:82-86 | the world text is changed exactly when the address is truthy, and different addresses give different system texts |
| StoryApi.DropEmptyKeepsConversation | src/app/api/story/route.ts:92-99 | the empty-string filter removes exactly the lines of other roles; a narrator or player entry with empty content is still kept |
| StoryApi.ConversationEntries | src/app/api/story/route.ts:92-99 | the entries a prompt uses are narrator and player turns only, never more than given |
| StoryApi.ConversationLinesOfEntries | src/app/api/story/route.ts:92-99 | the history lines depend only on the narrator and player entries, in order |
| StoryApi.BuildPromptIgnores | src/app/api/story/route.ts:88-112 | "start" yields the fixed opening prompt whatever the history and player action; a continue prompt is unchanged when entries of other roles are removed |
| StoryApi.ContinuePromptCarriesAction | src/app/api/story/route.ts:101-111 | over the same history, two continue prompts are equal only when the player actions render to the same text |
| StoryApi.Post | src/app/api/story/route.ts:72-137 | a 500 whose body starts "Failed to generate story: " exactly when the body is unreadable, no backend is available, a "continue" turn's history is not an array of objects (naming the TypeError), or opening the stream throws (naming the thrown message, or "Unknown error" for a non-Error value); otherwise a stream whose provider and model headers are the chosen backend's, with the system text and prompt built from the request |
| WebLLMHook.StatusViewsExclusive | src/hooks/useWebLLM.ts:190-192 | a ready model is neither loading nor unsupported; an unsupported one is neither ready nor loading |
| WebLLMHook.HistoryTurnsSnoc | src/hooks/useWebLLM.ts:137-145 | history entries map to turns one by one, in order |
| WebLLMHook.HistoryTurnsSpec | src/hooks/useWebLLM.ts:137-145 | one turn per narrator or player entry, none of them a system turn |
| WebLLMHook.ChatMessagesShape | src/hooks/useWebLLM.ts:132-148 | the list starts with the system prompt, ends with the prompt as a user turn, and has 2 + (narrator and player entries) messages |
| WebLLMHook.BuildChatMessages | src/hooks/useWebLLM.ts:132-148 | the push loop builds exactly the message list above |
| WebLLMHook.NonEmptyDeltasSpec | src/hooks/useWebLLM.ts:158-162 | only non-empty deltas are yielded, in order, and together they spell exactly the text of all deltas |
| WebLLMHook.Generate | src/hooks/useWebLLM.ts:127-168 | "WebLLM not ready" unless an engine is set and the status is ready; otherwise yields exactly the engine's non-empty deltas in arrival order and rethrows the engine's failure |
| WebLLMHook.GenerateComplete | src/hooks/useWebLLM.ts:173-182 | the result is the in-order concatenation of the yielded chunks, or the rethrown error |
| WebLLMHook.Hook.constructor | src/hooks/useWebLLM.ts:51 | the hook starts over its store and not initialising |
| WebLLMHook.AfterReportsSpec | src/hooks/useWebLLM.ts:104-111 | after the reports the progress and its text are the last report's (unchanged when there was none); the status becomes "loading" exactly when some report says the download is complete; the error, engine and persisted fields are untouched |
| WebLLMHook.AfterLoadSpec | src/hooks/useWebLLM.ts:97-119 | a successful load leaves the engine set and ready and keeps any error an earlier failure recorded; a failed one records the thrown message or the fixed text and keeps the previous engine; the progress is the last report's, or 0 with "Loading WebLLM..."; nothing persisted changes |
| WebLLMHook.Hook.ReplayReports | src/hooks/useWebLLM.ts:104-111 | the store after the progress callback has seen each report in order: the whole new state |
| WebLLMHook.Hook.Initialize | src/hooks/useWebLLM.ts:80-123 | a no-op while initialising, with an engine, or when ready; without WebGPU only the status changes, to "unsupported"; otherwise the whole new store state is the state after the load; the in-progress flag is cleared on every exit |
| WebLLMStore.ResetSpec | src/state/webllmStore.ts:69-75 | reset restores every volatile field to its initial value and keeps the preferences and the model id |
| WebLLMStore.PartializeIgnoresVolatile | src/state/webllmStore.ts:79-84 | only the preference flags and the model id are persisted: two states agreeing on them persist identically |
| WebLLMStore.SettersKeepPersisted | src/state/webllmStore.ts:63-65 | the error, engine and progress setters never change what is persisted; the error status comes exactly from a non-empty message and the ready status exactly from an engine |
| WebLLMStore.Store.constructor | src/state/webllmStore.ts:51-60 | idle, no progress, no error, the default model, no engine, in-browser model preferred, not declined, never downloaded |
| WebLLMStore.Store.SetStatus | src/state/webllmStore.ts:62 | only the status changes |
| WebLLMStore.Store.SetProgress | src/state/webllmStore.ts:63 | sets the progress; the text defaults to "" when absent or empty; nothing else changes |
| WebLLMStore.Store.SetError | src/state/webllmStore.ts:64 | sets the error; status "error" for a non-empty message, "idle" otherwise |
| WebLLMStore.Store.SetEngine | src/state/webllmStore.ts:65 | sets the engine; status "ready" with an engine, "idle" without |
| WebLLMStore.Store.SetPreferWebLLM | src/state/webllmStore.ts:66 | only the preference flag changes |
| WebLLMStore.Store.SetHasDeclined | src/state/webllmStore.ts:67 | only the declined flag changes |
| WebLLMStore.Store.SetHasDownloadedOnce | src/state/webllmStore.ts:68 | only the downloaded-once flag changes |
| WebLLMStore.Store.Reset | src/state/webllmStore.ts:69-75 | the volatile fields return to their initial values |
| Llm.CheckLocalLLM | src/lib/llm.ts:13-27 | never throws: available exactly when the probe got an ok response |
| Llm.LocalBaseUrl | src/lib/llm.ts:31 | the configured URL when set and non-empty, else http://localhost:11434 |
| Llm.LocalModel | src/lib/llm.ts:32 | the configured model when set and non-empty, else llama3.2 |
| Llm.GetLLM | src/lib/llm.ts:30-70 | the local backend with the configured model and URL exactly when it is preferred and its probe succeeds; otherwise the Anthropic model when a key is set; otherwise the "No LLM available" error |
| Llm.GetLLMStatus | src/lib/llm.ts:73-102 | reports the probe result even when local is not preferred; the Anthropic flag is set exactly when a key is; active is local exactly when preferred and available, Anthropic exactly when not local and a key is set |
| Llm.ServerAvailableSpec | src/app/api/llm/status/route.ts:10 | the route reports the server available exactly when local is preferred and answering or an Anthropic key is set, that is exactly when `getLLM` would find a backend |
| Llm.GetLLMAgreesWithStatus | src/lib/llm.ts:36-89 | for the same environment and probe, `getLLM` fails exactly when the status reports no backend, and picks local exactly when the status reports local |
| Llm.GetLLMIgnoresProbeUnlessPreferred | src/lib/llm.ts:33-55 | when local is not preferred, the probe result cannot change the choice |
| LocalOllama.SelectModel | src/hooks/useLocalOllama.ts:41 | llama3.2 when listed, else the first listed name when it is non-empty, else llama3.2; never empty and always the default or a listed name |
| LocalOllama.AfterProbeSpec | src/hooks/useLocalOllama.ts:35-46 | an ok probe makes the service available with the listed names and a valid selection; a throwing probe only clears availability; a non-ok answer changes nothing |
| LocalOllama.LineResponsesAppend | src/hooks/useLocalOllama.ts:94-103 | lines are handled one after another: the responses of two runs of lines concatenate |
| LocalOllama.ChunkResponsesAppend | src/hooks/useLocalOllama.ts:87-104 | chunks are handled in order: the responses of a longer stream extend those of its prefix |
| LocalOllama.LineResponsesSkip | src/hooks/useLocalOllama.ts:95-102 | a line that does not parse, or has no truthy `response`, is skipped without affecting the rest |
| LocalOllama.LineResponsesNonEmpty | src/hooks/useLocalOllama.ts:97-99 | nothing empty is yielded from a chunk's lines |
| LocalOllama.ChunkResponsesNonEmpty | src/hooks/useLocalOllama.ts:97-99 | nothing empty is ever yielded |
| LocalOllama.ReadLines | src/hooks/useLocalOllama.ts:94-103 | the loop over one chunk's lines yields each line's truthy `response`, in order |
| LocalOllama.ReadChunks | src/hooks/useLocalOllama.ts:87-104 | the nested reading loops yield each truthy `response` of the non-empty lines of each chunk, in line-then-chunk order |
| LocalOllama.DecimalString | src/hooks/useLocalOllama.ts:77 | a status code renders as a non-empty string of decimal digits |
| LocalOllama.DecimalRoundTrip | src/hooks/useLocalOllama.ts:77 | the digits in "Ollama error: <code>" are those of the status code: reading them back gives the code |
| LocalOllama.Hook.constructor | src/hooks/useLocalOllama.ts:15-20 | unavailable, no models, llama3.2 selected, check in progress |
| LocalOllama.Hook.CheckOllama | src/hooks/useLocalOllama.ts:24-50 | the status after the probe, and the check always ends |
| LocalOllama.Hook.Generate | src/hooks/useLocalOllama.ts:56-107 | refuses when unavailable; posts the selected model; fails on a thrown request, with "Ollama error: <code>" on a non-ok status, and on a missing body; otherwise yields the chunk responses and ends with the read error if one was thrown |
| TauriCommands.Index | src-tauri/src/lib.rs:95 | indexing anything but an object gives null |
| TauriCommands.LookupLast | src-tauri/src/lib.rs:99 | a present key reads as the value of its last field, as `serde_json` keeps the last of duplicate keys |
| TauriCommands.LookupAbsent | src-tauri/src/lib.rs:99 | an absent key reads as null |
| TauriCommands.ModelNames | src-tauri/src/lib.rs:98-100 | never more names than entries |
| TauriCommands.ModelNamesAppend | src-tauri/src/lib.rs:98-100 | names are collected in entry order |
| TauriCommands.ModelNamesSkip | src-tauri/src/lib.rs:99 | an entry without a string `name` is skipped and nothing else changes |
| TauriCommands.ModelNamesAllNamed | src-tauri/src/lib.rs:95-102 | when every entry has a string name, the result is exactly those names in order |
| TauriCommands.ListedNames | src-tauri/src/lib.rs:95-102 | a missing or non-array `models` member gives no names |
| TauriCommands.CheckInstalled | src-tauri/src/lib.rs:20-30 | never an error; true exactly when `ollama --version` ran and succeeded |
| TauriCommands.CheckRunning | src-tauri/src/lib.rs:34-46 | never an error; true exactly when the probe got a success status |
| TauriCommands.ListModels | src-tauri/src/lib.rs:82-105 | a connection error or an unparsable body gives the prefixed error; otherwise the listed names |
| TauriCommands.AnyStartsWith | src-tauri/src/lib.rs:111 | true exactly when some name starts with the argument (a prefix, not equality) |
| TauriCommands.HasModel | src-tauri/src/lib.rs:109-112 | a listing error propagates; otherwise true exactly when some listed name starts with the argument |
| TauriCommands.PullModel | src-tauri/src/lib.rs:116-129 | success exactly when `ollama pull` ran and succeeded; otherwise the prefixed spawn error or the process's stderr |
| TauriCommands.StartOllama | src-tauri/src/lib.rs:50-78 | success exactly when `ollama serve` could be spawned; otherwise the prefixed spawn error |
| TauriCommands.GetOllamaStatus | src-tauri/src/lib.rs:133-147 | never an error; installed and running come from the checks; no models unless running; a listing failure gives no models |
| UseTauri.IsTauri | src/hooks/useTauri.ts:13-16 | false without a window; otherwise true exactly when one of the shell's globals is present |
| UseTauri.FromCommand | src/hooks/useTauri.ts:73-74 | a command's error reaches the page as the thrown message; its value as the returned value |
| UseTauri.BrowserStatus | src/hooks/useTauri.ts:49-62 | an ok probe means installed and running with the listed names or none; a non-ok or throwing probe means neither, with no models |
| UseTauri.AfterCheckSpec | src/hooks/useTauri.ts:45-78 | loading always ends; outside the shell the error is untouched; inside, a failing command keeps the previous status and records the error, a success takes the status and clears the error |
| UseTauri.ShellCheckNoModelsUnlessRunning | src/hooks/useTauri.ts:68-72 | inside the shell no models are listed while the service is not running |
| UseTauri.AfterCommandSpec | src/hooks/useTauri.ts:81-122 | the answer is true exactly inside the shell when the command did not throw; outside only the browser error is set; a failing pull surfaces its stderr as the error |
| UseTauri.Hook.constructor | src/hooks/useTauri.ts:30-37 | not in the shell, nothing installed or running, no models, loading, no error |
| UseTauri.Hook.DetectShell | src/hooks/useTauri.ts:40-42 | records whether the page runs in the shell and nothing else |
| UseTauri.Hook.CheckOllamaStatus | src/hooks/useTauri.ts:45-78 | the hook state becomes the state after the check |
| UseTauri.Hook.RunCommand | src/hooks/useTauri.ts:81-122 | the common shape of start and pull: the state and answer after the command |
| UseTauri.Hook.StartOllama | src/hooks/useTauri.ts:81-101 | the state and answer after `start_ollama`, with the browser refusal text outside the shell |
| UseTauri.Hook.PullModel | src/hooks/useTauri.ts:104-122 | the state and answer after `pull_model`, with the browser refusal text outside the shell |
| UseTauri.Hook.HasModel | src/hooks/useTauri.ts:125-130 | true exactly when some model of the current status starts with the argument |
| OllamaSetup.GetSetupStep | src/components/OllamaSetup.tsx:29-34 | install exactly when not installed; start exactly when installed and not running; pull exactly when running without the model; ready exactly when installed, running and some model starts with llama3.2 |
| OllamaSetup.ShouldNotifyReadySpec | src/components/OllamaSetup.tsx:39-42 | the parent is notified exactly when every requirement is met and no check is in flight |
| OllamaSetup.Indicators | src/components/OllamaSetup.tsx:69-88 | three indicators whose completion flags are installed, running and model-present, independent of the current step |
| OllamaSetup.IndicatorsSpec | src/components/OllamaSetup.tsx:69-88 | the active indicator is the first incomplete one, and none is active exactly when the step is ready |
| OllamaSetup.Badge | src/components/OllamaSetup.tsx:243 | a complete indicator shows a check mark, an incomplete one its number |
| CharacterCreation.Ids | src/components/CharacterCreation.tsx:152-154 | the ids of a table, one per entry, in table order |
| CharacterCreation.FindIndex | src/components/CharacterCreation.tsx:152-154 | `find` returns the first entry with the id, and nothing exactly when the id is null or absent |
| CharacterCreation.FindIndexOfDistinct | src/components/CharacterCreation.tsx:152-154 | with distinct ids, finding the id of an entry gives back that entry |
| CharacterCreation.StepsKeepValid | src/components/CharacterCreation.tsx:145-170 | continue, back and the transition timer keep the step in 0..3 and every passed step's choice made |
| CharacterCreation.SelectionsKeepValid | src/components/CharacterCreation.tsx:220-295 | choosing a card or typing a name keeps the wizard valid |
| CharacterCreation.ContinueSpec | src/components/CharacterCreation.tsx:145-164 | a no-op until the step's choice is made; before the last step, exactly one step forward once the timer fires, ignored during a transition; on the last step no move and the record is always produced |
| CharacterCreation.BackSpec | src/components/CharacterCreation.tsx:166-170 | exactly one step back once the timer fires, never below the first step, ignored during a transition |
| CharacterCreation.OriginIdsDistinct | src/components/CharacterCreation.tsx:17-38 | the game's origin cards have distinct ids |
| CharacterCreation.BeliefIdsDistinct | src/components/CharacterCreation.tsx:40-65 | the game's belief cards have distinct ids |
| CharacterCreation.FactionIdsDistinct | src/components/CharacterCreation.tsx:67-116 | the game's faction cards have distinct ids |
| CharacterCreation.CompletionSpec | src/components/CharacterCreation.tsx:152-161 | for tables with distinct ids, as the game's are, the record has the trimmed name, the titles of the chosen origin, belief and faction, and the faction's gift |
| CharacterCreation.Wizard.constructor | src/components/CharacterCreation.tsx:121-126 | step 0, no transition, empty name, no choices |
| CharacterCreation.Wizard.SetName | src/components/CharacterCreation.tsx:220-222 | the name changes and nothing else; the field accepts at most 40 characters |
| CharacterCreation.Wizard.SelectOrigin | src/components/CharacterCreation.tsx:236 | the origin becomes the card's id and nothing else changes |
| CharacterCreation.Wizard.SelectBelief | src/components/CharacterCreation.tsx:265 | the belief becomes the card's id and nothing else changes |
| CharacterCreation.Wizard.SelectFaction | src/components/CharacterCreation.tsx:295 | the faction becomes the card's id and nothing else changes |
| CharacterCreation.Wizard.RequestStep | src/components/CharacterCreation.tsx:128-135 | a transition request is ignored while another runs |
| CharacterCreation.Wizard.Continue | src/components/CharacterCreation.tsx:145-164 | the state and completion record after `handleContinue`, keeping the wizard valid |
| CharacterCreation.Wizard.Back | src/components/CharacterCreation.tsx:166-170 | the state after `handleBack`, keeping the wizard valid |
| CharacterCreation.Wizard.TransitionElapsed | src/components/CharacterCreation.tsx:131-134 | the pending step takes effect and the transition ends |
| IntroSequence.IntroPages | src/components/IntroSequence.tsx:9-26 | five pages, of which only the last is highlighted |
| IntroSequence.NextSpec | src/components/IntroSequence.tsx:32-44 | ignored during a transition; before the last page it advances exactly one page once the timer fires; on the last page it completes without moving; the page stays in range |
| IntroSequence.Pager.constructor | src/components/IntroSequence.tsx:29-30 | first page, no transition |
| IntroSequence.Pager.Next | src/components/IntroSequence.tsx:32-44 | the state and completion after `handleNext`, keeping the page in range |
| IntroSequence.Pager.Skip | src/components/IntroSequence.tsx:46-48 | completes from any page |
| IntroSequence.Pager.TransitionElapsed | src/components/IntroSequence.tsx:37-40 | the pending page change takes effect, keeping the page in range |
| IntroSequence.Pager.Page | src/components/IntroSequence.tsx:50-51 | the page shown carries the current page's text and is highlighted exactly on the last page |
| Admin.ToInt32 | src/lib/admin.ts:12-13 | a signed 32-bit value congruent to its argument modulo 2^32 |
| Admin.ToInt32Congruent | src/lib/admin.ts:12-13 | the wrap depends only on its argument modulo 2^32 |
| Admin.HashStepIsPolynomialStep | src/lib/admin.ts:12-13 | the shift, subtraction and `&` of one step amount to 31·hash + code wrapped to signed 32 bits |
| Admin.HashOfIsWrappedPolynomial | src/lib/admin.ts:9-14 | the hash is the polynomial hash of the code units modulo 2^32, as a signed value |
| Admin.HashLoop | src/lib/admin.ts:9-14 | the loop computes the step-by-step hash, stays in the signed 32-bit range, and gives 0 for empty input |
| Admin.Base36 | src/lib/admin.ts:15 | base-36 digits only, at least one |
| Admin.DigitValue36 | src/lib/admin.ts:15 | a digit's value is below 36 |
| Admin.Base36RoundTrip | src/lib/admin.ts:15 | reading the base-36 digits back gives the number |
| Admin.HashTokenSpec | src/lib/admin.ts:8-16 | the token is non-empty base-36 with no minus sign, starting with the digits of the hash's magnitude, which is at most 2^31 |
| Admin.VerifyAdminPassword | src/lib/admin.ts:18-27 | false whenever no admin password is configured; otherwise exact equality |
| Admin.VerifyAdminPasswordOnlyExact | src/lib/admin.ts:18-27 | only the configured password itself, never an empty one, is accepted |
| Admin.SessionCookie | src/lib/admin.ts:29-42 | the admin cookie carries the hashed UUID for 86400 s, http-only, same-site strict, path "/", and secure exactly in production |
| Admin.SessionLifecycle | src/lib/admin.ts:44-59 | setting the session cookie makes the session verify; clearing it makes it fail; other cookies are untouched |
| AdminLogin.Login | src/app/api/admin/login/route.ts:4-32 | 400 "Password required" exactly for a missing or empty password; 401 "Invalid password" exactly when it does not verify; 200 with the session cookie exactly for the configured password; 500 "Login failed" for an unreadable body or a failing session |
| AdminLogin.NoAdminPasswordNoLogin | src/app/api/admin/login/route.ts:15-20 | without a configured admin password no request logs in |
| AdminLogin.LoginGrantsSession | src/app/api/admin/login/route.ts:22-24 | after a successful login the admin session verifies |

## Left out

- Rendering and styling: the JSX of every component, WebLLMSetup, WelcomeScreen, the admin and home pages, the layout, the theme and the Tailwind configuration. They carry no behaviour beyond the flags modelled here.
- Build and wallet configuration (`next.config.js`, `src/lib/wagmi.ts`). The wallet address reaches the model as an optional string.
- The status routes:
  - `src/app/api/llm/status/route.ts` contributes only its `serverAvailable` flag, modelled as `Llm.ServerAvailable`, whose meaning `Llm.ServerAvailableSpec` states. Its catch branch is not modelled; it would need `getLLMStatus` to throw, which the modelled probe never does.
  - `src/app/api/admin/status/route.ts` only wraps `getLLMStatus` and environment reads behind the cookie check `Admin.HasAdminSession`.
- Real I/O is replaced by inputs:
  - `fetch`, stream readers, `TextDecoder` (chunks arrive already decoded), `streamText` and the provider SDKs (whether opening the story stream throws is the `StoryApi.StreamStart` input);
  - `std::process::Command`, `reqwest`, `open::that` and `open_ollama_download`;
  - `cookies()` (a map from cookie names to values) and `NextResponse`.
- The WebLLM engine, WebGPU detection (`checkSupport` is the `supported` input), the dynamic imports and `getTauriInvoke` (the `invokeAvailable` input).
- `JSON.parse` and `serde_json`. The parsed value is an input: a `Json` value, or a `field` oracle giving the `response` string of a line.
- Timers and time:
  - The transition, sleep and abort timeouts are not modelled. A pending step or page change takes effect in an explicit `TransitionElapsed` call.
  - `Date.now` is a parameter.
  - `toLocaleDateString` in a new story's title is a `dateText` parameter.
- `crypto.randomUUID` ids are parameters with a freshness precondition.
- Persistence (the `persist` middleware, localStorage). Only the persisted subset of the in-browser model store is modelled, as `WebLLMStore.Partialize`.
- Concurrency: React re-renders, the async interleaving of functional `setMessages` updates, and two `initialize` or `generate` calls in flight at once. Every operation runs to completion before the next.
- The `isStarting`/`isPulling` toggles of the setup screen: they only wrap the hook's calls and drive rendering.
- Rounding of the loader's progress fraction to a percentage (`Math.round`). Reports arrive with the percentage already computed.
- The fixed texts (world context, prompts, intro pages, creation cards) are carried as parameters and stated exactly only in contract-free functions.
- Strings are sequences of characters. `hashToken` is modelled over UTF-16 code units (`Admin.CodeUnit`) as `charCodeAt` sees them; the conversion of a UUID string into code units is not modelled.
- LocalOllama.ReadChunks: as in the source, each chunk is split on its own. A JSON line split across two chunks therefore reaches the parser as two fragments and is dropped (`LineResponsesSkip`); no cross-chunk buffering is modelled.
