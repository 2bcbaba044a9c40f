# LM Studio chat extension: a Dafny model of its core

The extension has two parts. The popup (src/App.js) keeps several chat sessions and a list of saved personas (named system prompts). The background script (background.js) talks to a local, OpenAI-compatible model server. This project models the logic of both parts and proves properties about it.

- **Text** (`text.dfy`): ASCII versions of the string primitives the code uses, with their laws. They are `trim`, `toLowerCase`, `startsWith`, `a || b` on strings, and decimal printing of status codes.
- **Wire** (`wire.dfy`): the records sent between popup and background. These are chat messages, the background's events (`CHAT_STREAM_START`, `CHAT_STREAM_CHUNK`, `CHAT_STREAM_END`, `CHAT_ERROR`, `MODELS_LIST`, `MODELS_ERROR`) and the popup's requests (`GET_MODELS`, `SEND_CHAT_MESSAGE`).
- **StreamDecoder** (`stream_decoder.dfy`): the line framing of the streamed completion body, done by `push()`.
  - The carry-over buffer `partialResponse`, the split on line feeds and the pop of the last piece are all modelled.
  - Complete lines are classified into `data: ` payloads, `[DONE]`, malformed JSON, and deltas with or without content.
  - The reader loop is a class, `StreamReader`, whose fields are the buffer and the messages sent so far.
  - The framing is proved equal to a character-at-a-time state machine. From that follow the buffer invariant and chunk-boundary independence.
  - The framing is a subset of the Server-Sent Events format (WHATWG HTML Standard, section 9.2). There is no carriage-return handling, no `event:`/`id:` fields and no multi-line data, and the space after `data:` is required.
- **Upstream** (`upstream.dfy`): what the background sends to the server and what it makes of replies that are not a stream:
  - the `messages` array of a chat request: an optional trimmed system entry, then the filtered and mapped history;
  - the request body;
  - the error strings for non-OK responses;
  - the model-id projection of `GET /models`.
- **Sessions** (`sessions.dfy`): the pure functions that src/App.js passes to `setSessions` and `setSavedPersonas`.
  - Sessions: the active-session setters, add, rename and delete.
  - Personas: save and delete.
  - Messages: the chunk, end and append updaters, and the `slice(-11)` history.
  - The startup choice of the active session, and the reconciliation of the selected model with a new model list.
- **ChatApp** (`chat_app.dfy`):
  - The popup component's state is a class, `ChatStore`, with one field for each of the ten state variables the handlers below read or update (src/App.js:7-27 declares fourteen; the other four are listed under "## Left out"). Every handler is a method on it.
  - The `runtime.onMessage` listener is a function, `Listen`, from one state snapshot (`View`) to the next. `OnMessage` applies it to the store.
  - The handlers keep an invariant, `Consistent`: session ids are distinct, the active id names a session, and personas have distinct ids and names that differ ignoring case.

Values the code gets from outside are passed in as parameters:
- fresh ids from `Date.now()`;
- the answer of `window.confirm`, as a `bool`;
- whether `chrome.runtime` is available, as a `bool`;
- what `JSON.parse` plus `choices[0]?.delta?.content` returns, as a `Parser` function.

An `alert` becomes an `Option<string>` result holding the alert text. A `chrome.runtime.sendMessage` to the background becomes an `Option<Request>` result.

### Where the code and its comments disagree

The model follows the code in each case below.

- **`sendMessage` history.** The history is `sessions.find(...).messages.slice(-11)`, read from the state the handler closed over (src/App.js:342-343). That state is from before the `You` message was appended at src/App.js:338. So the request carries the last 11 messages *before* the new one, and the new text travels only as `prompt`. The comments at src/App.js:341 and src/App.js:343 say the history is read after the new message was added and ends with it, and the comment at background.js:58 says `prompt` is not needed because the history contains the latest message. `ChatApp.ChatStore.SendMessage` states the history as `LastN(messages, 11)` of the old session; "## Findings" below gives the consequence.
- **System prompt of a chat request.** The background takes it from its own stored `apiSettings.currentSystemPrompt` (background.js:15-16, 65-66). Neither the request's `prompt` (background.js:58, commented out) nor its `systemPrompt` field is read anywhere in background.js:57-93. `Upstream.CompletionFor` states the body's `messages` in terms of the stored prompt, and `Upstream.PopupPromptIgnored` states that the request body does not depend on the popup's two fields.
- **Settings of a chat request.** background.js:15 reads the storage key `apiSettings`, but the popup writes its settings under `globalApiSettings` (src/App.js:145); the comment at src/App.js:71 says the key was changed from `apiSettings`, and only the migration branch at src/App.js:81 still reads the old key. Nothing writes `apiSettings`, so unless a record from an older version survives, `getApiSettings()` returns `DEFAULT_API_SETTINGS`: the URL, temperature and token-limit edits made in the popup never reach the background, and no system entry is ever sent. `Upstream.NoStoredSettingsRequest` states the request that then results. The model takes the stored record as a parameter and does not model which key is read.
- **Error text of non-OK responses.** The comments at background.js:34, 37 and 107 say the error body's message is used when it parses, and the fallback only when the body is not JSON. But the `.catch(() => { throw ... })` after `response.json().then(...)` also catches the error thrown inside that `.then`. The message taken from the error body is therefore always replaced by the fallback (background.js:35-39, 97-109). `Upstream.ModelsFailure` and `Upstream.ChatFailure` state the fallback texts, which do not depend on the body.
- **Sending while a reply streams.** The send button is disabled while `loading` (src/App.js:490), but `sendMessage` itself does not check `loading` (src/App.js:330-336), and the Enter key reaches it through `handleKeyPress` (src/App.js:368-373) without that check. The model's `SendMessage` does not check `loading` either.
- **Unclosed brace.** src/App.js:197-217 lacks the closing brace of the `else` branch in `handleGlobalSettingsChange`. It is read as the indentation intends: the `else` branch ends before `};` at line 217.

## Model

| member | source | states |
|---|---|---|
| Text.TrimStart | background.js:66 | the result is a suffix of the input and does not start with white space |
| Text.TrimStartDropsSpace | background.js:66 | everything `TrimStart` drops is white space |
| Text.TrimEnd | background.js:66 | the result is a prefix of the input and does not end with white space |
| Text.TrimEndDropsSpace | background.js:66 | everything `TrimEnd` drops is white space |
| Text.Trim | background.js:66 | a non-empty trimmed string neither starts nor ends with white space |
| Text.TrimEmptyIffBlank | src/App.js:244 | `s.trim()` is empty exactly when every character of `s` is white space |
| Text.TrimIdempotent | background.js:66 | trimming twice is trimming once |
| Text.ToLower | src/App.js:279 | lower-casing keeps the length |
| Text.ToLowerAt | src/App.js:279 | lower-casing works character by character |
| Text.LowerIdempotent | src/App.js:279 | lower-casing is idempotent, and a name matches its lower-case form ignoring case |
| Text.NatToString | background.js:108 | a status prints as a non-empty digit string with no leading zero |
| Text.NatToStringRoundTrip | background.js:108 | reading the printed digits back gives the number |
| Text.NatToStringInjective | background.js:108 | different statuses print differently |
| StreamDecoder.Step | background.js:126-130 | one `push()` of decoded text: append to the buffer, split on line feeds, keep the last piece; its laws are `StepAccounts`, `StepIsScan` and `StepNewline` |
| StreamDecoder.Feed | background.js:120-151 | the successive `push()` calls over the chunks read; its laws are `FeedSnoc`, `FeedIsStepOfConcat` and `FeedAccountsForAllText` |
| StreamDecoder.Classify | background.js:133-148 | how `lines.forEach` treats one complete line; `DeltaExactly` states when it yields a chunk |
| StreamDecoder.Events | background.js:132-150 | the chunk messages of a batch of lines; its laws are `EventsAreChunks`, `EventsAppend`, `SilentLineDroppable` and `EventsComeFromDeltaLines` |
| StreamDecoder.Transcript | background.js:117-151 | everything sent for a stream that ends normally; its laws are `TranscriptShape`, `ChunkBoundaryIndependence` and `UnterminatedTailNeverSent` |
| StreamDecoder.FirstNewline | background.js:129 | the index found holds a line feed and no earlier index does |
| StreamDecoder.Split | background.js:129 | `split('\n')` gives at least one piece |
| StreamDecoder.SplitPiecesClean | background.js:129 | no piece of a split contains a line feed |
| StreamDecoder.SplitCons | background.js:129 | a line-feed-free prefix followed by a line feed is the first piece |
| StreamDecoder.TerminatedAppend | background.js:129-130 | re-terminating lines distributes over concatenation |
| StreamDecoder.SplitRestores | background.js:129-130 | all pieces but the last, each followed by a line feed, then the last piece, give the input back |
| StreamDecoder.SplitOfTerminated | background.js:129 | splitting terminated line-feed-free lines plus a line-feed-free rest returns exactly those lines and that rest |
| StreamDecoder.StepAccounts | background.js:126-130 | after one `push()` the buffer holds no line feed, no complete line holds one, and lines plus buffer equal old buffer plus chunk |
| StreamDecoder.ScanAppend | background.js:126-130 | the character state machine over `a + b` is the machine over `a`, then over `b` from the state reached |
| StreamDecoder.StepIsScan | background.js:126-130 | split-and-pop from a line-feed-free buffer equals the character state machine |
| StreamDecoder.StepNewline | background.js:129-130 | a leading line feed completes the buffer as one line and restarts with an empty buffer |
| StreamDecoder.FeedSnoc | background.js:126-130 | feeding one more chunk is one more `push()` from the buffer reached |
| StreamDecoder.FeedIsStepOfConcat | background.js:120-151 | the chunks one per `push()` give the same lines and buffer as their concatenation in a single `push()` |
| StreamDecoder.FeedAccountsForAllText | background.js:126-130 | after every chunk the buffer has no line feed, and the complete lines with their line feeds plus the buffer equal all text received |
| StreamDecoder.DeltaExactly | background.js:133-145 | a line yields a chunk exactly when it starts with `data: `, its payload after six characters is not `[DONE]`, and the payload parses to non-empty content |
| StreamDecoder.EventsAreChunks | background.js:132-150 | a batch of lines sends at most one message per line, and only non-empty chunk messages for the stream's id |
| StreamDecoder.EventsAppend | background.js:132-150 | lines are handled one by one, in order and independently |
| StreamDecoder.SilentLineDroppable | background.js:140-148 | a line that yields nothing, such as a malformed payload, changes nothing that the lines around it yield |
| StreamDecoder.EventsComeFromDeltaLines | background.js:142-145 | every chunk sent carries the content of some delta line of the batch |
| StreamDecoder.TranscriptShape | background.js:118-124 | a normally ending stream sends a start, only chunks for its id, then exactly one end, the last message |
| StreamDecoder.ChunkBoundaryIndependence | background.js:126-150 | however the body is cut into chunks, the same messages are sent |
| StreamDecoder.UnterminatedTailNeverSent | background.js:122-130 | text after the last line feed never produces a message |
| StreamDecoder.SentSnoc | background.js:126-151 | one more chunk sends exactly the messages of the lines it completes |
| StreamDecoder.StreamReader.constructor | background.js:114-118 | the buffer starts empty and only the start message has been sent |
| StreamDecoder.StreamReader.Push | background.js:126-151 | one read appends the chunk's complete lines' messages, keeps the buffer free of line feeds and the reader's invariant |
| StreamDecoder.StreamReader.SendChunks | background.js:132-150 | `lines.forEach` sends, in order, the chunk message of each delta line |
| StreamDecoder.StreamReader.Done | background.js:122-124 | `done` sends one end message, drops the buffer, and the whole output is the stream's transcript |
| StreamDecoder.StreamReader.ReadFailed | background.js:152-156 | a failed read sends the error message and an end message flagged as an error |
| Upstream.GetApiSettings | background.js:1-23 | the stored `apiSettings` over `DEFAULT_API_SETTINGS`; `NoStoredSettingsRequest` states what a request built from the defaults carries |
| Upstream.NoStoredSettingsRequest | background.js:2-23 | with no stored `apiSettings`, a chat request has no system entry, only the formatted history, temperature `0.7` and a 1024-token limit |
| Upstream.FormatHistory | background.js:70-75 | the `filter`/`map` of the history; its laws are `FormatHistoryShape`, `FormatHistoryEntries` and `FormatHistoryAppend` |
| Upstream.ApiMessages | background.js:62-76 | the `apiMessages` array as a value; `BuildApiMessages` builds it step by step and states its shape |
| Upstream.ModelsThen | background.js:35-37 | the models `.then` handler's rejection; `ModelsFailure` shows that the `catch` after it discards it |
| Upstream.ChatThen | background.js:97-106 | the chat `.then` handler's rejection; `ChatFailure` shows that the `catch` after it discards it |
| Upstream.FormatHistoryLast | background.js:70-75 | a history whose last message is a `You`/`AI` turn formats to entries ending with that turn's mapped form |
| Upstream.ApiMessagesLast | background.js:76 | the formatted history is concatenated last, so its final entry is the array's final entry |
| Upstream.FormatHistoryShape | background.js:70-75 | the formatted history has one entry per `You`/`AI` message and no system entry |
| Upstream.FormatHistoryEntries | background.js:70-75 | every formatted entry is the mapped form of some `You`/`AI` message |
| Upstream.FormatHistoryAppend | background.js:70-75 | formatting distributes over concatenation, so it keeps the original order |
| Upstream.BuildApiMessages | background.js:62-76 | `apiMessages` starts with a system entry holding the trimmed prompt exactly when the prompt is not blank; the formatted history follows; its length is that entry plus the count of `You`/`AI` messages |
| Upstream.CompletionFor | background.js:55-93 | the body streams; its `messages` are `ApiMessages` of the stored system prompt and the request's history; it carries the request's model and the stored temperature and token limit |
| Upstream.PopupPromptIgnored | background.js:57-60 | two requests that differ only in `prompt` and `systemPrompt` produce the same body |
| Upstream.ModelsFailure | background.js:33-39 | a non-OK models response always fails with `Failed to fetch models (<status> <statusText or 'Server error'>)`, whatever its body |
| Upstream.ChatFailure | background.js:96-109 | a non-OK chat response always fails with `API Error: <status> <statusText or 'Server error'>`, whatever its body |
| Upstream.DigitsSpaceSplit | background.js:108 | a digit string, a space and a tail can be split apart in only one way |
| Upstream.ChatFailureDeterminesStatus | background.js:108 | equal chat error texts mean equal statuses and equal (defaulted) status texts |
| Upstream.ModelIds | background.js:45 | the ids of the model records, in order |
| Upstream.ProjectModels | background.js:43-46 | the model list is the ids of `data.data` in order, or empty when it is not an array |
| Upstream.ModelsReply | background.js:31-51 | `GET_MODELS` answers with one message: a list exactly when the response was OK and parsed, and an error otherwise, whose text for a non-OK status is the fallback |
| Upstream.ChatOpenError | background.js:95-110 | a chat request that opens no stream sends one `CHAT_ERROR`, whose text for a non-OK status is the fallback |
| Sessions.WithMessages | src/App.js:40-51 | `setActiveMessages`: the message-list updater applied to the active session; `ActiveSettersFrame`, `SettersKeepIds` and `SessionIsolation` state its effect |
| Sessions.WithSelectedModel | src/App.js:53-57 | `setActiveSessionSelectedModel`; `ActiveSettersFrame` and `SettersKeepIds` state its effect |
| Sessions.WithSystemPrompt | src/App.js:59-63 | `setActiveSessionSystemPrompt`; `ActiveSettersFrame` and `SettersKeepIds` state its effect |
| Sessions.Renamed | src/App.js:248-249 | the rename `map`; `RenamedKeepsIds` and `ChatStore.HandleRenameSession` state its effect |
| Sessions.RemoveSession | src/App.js:263 | the session `filter`; `RemoveSessionCount` and `ChatApp.DeleteKeepsActive` state its effect |
| Sessions.SavedPersonas | src/App.js:278-292 | the persona list after a save; `SavedPersonasCases`, `SaveDeclinedKeepsPrompt` and `SavedPersonasInvariant` state its effect |
| Sessions.RemovePersona | src/App.js:306 | the persona `filter`; `ChatApp.RemovePersonaKeeps` states that it keeps the list consistent |
| Sessions.AppendChunk | src/App.js:161 | the chunk updater; `AppendChunkEffect` and `AppendChunkTwice` state its effect |
| Sessions.EndStreaming | src/App.js:163 | the end updater; `EndStreamingEffect` states its effect |
| Sessions.ModelsListSessions | src/App.js:176-184 | the session update of `MODELS_LIST`; `ModelsListReconciles`, `ModelsListAt` and `ModelsListKeepsIds` state its effect |
| Sessions.SameIdsConsistent | src/App.js:40-63 | rewriting sessions without changing their ids keeps ids distinct and the active id present |
| Sessions.FindSession | src/App.js:30 | `find` fails exactly when no session has the id, and otherwise returns the first session that has it |
| Sessions.FindSessionAt | src/App.js:30 | with distinct ids, `find` returns the session at the id's index |
| Sessions.UpdateWhere | src/App.js:41-50 | `map` changes exactly the addressed sessions and keeps count and order |
| Sessions.UpdateAbsent | src/App.js:41-50 | an update addressed to a missing id changes nothing |
| Sessions.ActiveSettersFrame | src/App.js:40-63 | each setter changes only its own field of the active session, and every other session is as it was |
| Sessions.SettersKeepIds | src/App.js:40-63 | no setter changes an id |
| Sessions.SessionIsolation | src/App.js:40-51 | appending to the active session leaves every other session's messages unchanged |
| Sessions.NewSession | src/App.js:221-229 | the new session has the fresh id, is named `Chat <old count + 1>`, has no messages, and inherits the active session's model and prompt (or `''`) |
| Sessions.RenamedKeepsIds | src/App.js:248-250 | renaming keeps every id |
| Sessions.WithoutMembers | src/App.js:263 | `filter` keeps exactly the elements whose key differs from the id |
| Sessions.WithoutAbsent | src/App.js:263 | filtering out a key nobody has changes nothing |
| Sessions.WithoutAt | src/App.js:263 | with distinct keys, filtering out element `k`'s key removes just that element and keeps the order of the rest |
| Sessions.RemoveSessionCount | src/App.js:262-268 | deleting from distinct sessions keeps ids distinct and removes one session exactly when the id exists |
| Sessions.FindPersonaIndex | src/App.js:279 | `findIndex` is -1 exactly when no name matches ignoring case, and otherwise is the first match |
| Sessions.SavedPersonasCases | src/App.js:278-292 | no namesake appends a fresh-id persona; a declined overwrite keeps the list; a confirmed one replaces the namesake in place, keeping its id |
| Sessions.SaveDeclinedKeepsPrompt | src/App.js:283-286 | declining to overwrite an existing namesake leaves the list unchanged |
| Sessions.SavedPersonasInvariant | src/App.js:279-292 | saving keeps names distinct ignoring case, and keeps ids distinct when the fresh id is new |
| Sessions.FindPersona | src/App.js:310 | `find` returns the first persona with the id, or fails when none has it |
| Sessions.UpdateMessage | src/App.js:161-163 | the messages with the id change, every other message stays, and count and order are kept |
| Sessions.AppendChunkEffect | src/App.js:161 | a chunk extends the text of the messages with its id, and is a no-op when none has it |
| Sessions.EndStreamingEffect | src/App.js:163 | a stream end clears `isStreaming` on its message and changes no text, id or sender |
| Sessions.AppendChunkTwice | src/App.js:161 | two chunks for one id add their concatenation |
| Sessions.LastN | src/App.js:343 | `slice(-n)` for a positive `n`, as `slice(-11)` is, is the last `min(n, length)` entries |
| Sessions.StartupChoice | src/App.js:95-113 | loading yields at least one session and an active id: the stored truthy id, else the first stored session, else a fresh `Chat 1` session |
| Sessions.StartupActiveExists | src/App.js:95-113 | after loading, the active id names a session unless storage held an id that none of its sessions has |
| Sessions.Reconcile | src/App.js:176-184 | a non-empty list keeps a listed selection and replaces an empty or unlisted one by the list's first id; an empty list leaves none |
| Sessions.ModelsListReconciles | src/App.js:176-184 | with distinct ids, `MODELS_LIST` applies `Reconcile` to the active session's selection and changes nothing else |
| Sessions.ModelsListKeepsIds | src/App.js:176-184 | `MODELS_LIST` changes no id |
| Sessions.ModelsListAt | src/App.js:176-184 | the session-by-session effect of `MODELS_LIST` |
| Sessions.ReconcileIdempotent | src/App.js:172-184 | a second identical model list changes no selection |
| Sessions.ReconcileKeeps | src/App.js:178-179 | the selection stays exactly when it was already acceptable for the list |
| ChatApp.Listen | src/App.js:154-190 | the listener on one event: it never switches session, touches personas, global settings or input, or changes the number of sessions; `StartAppendsPlaceholder`, `ChunkStep`, `EndFinishesMessage`, `ChatErrorAppendsNotice`, `ModelsListEffect` and `ModelsErrorEffect` state each branch in full |
| ChatApp.ChatErrorAppendsNotice | src/App.js:167-171 | a chat error appends one error-flagged `System` message `Error: <error>` to the active session, stops loading and streaming, and sets the status `error` |
| ChatApp.ModelsListEffect | src/App.js:172-184 | a model list replaces the known list wholesale, clears the model error, sets the status `connected` and reconciles the active selection, and nothing else |
| ChatApp.ModelsErrorEffect | src/App.js:185-189 | a model error sets the model error text, empties the model list and sets the status `error`, and nothing else |
| ChatApp.ListenStatus | src/App.js:155-189 | start and model list mean connected; chat error and model error mean error; an end flagged as an error means error; chunks keep the status |
| ChatApp.ListenSeparatesConcerns | src/App.js:154-189 | model errors never touch sessions; stream and chat events never touch the model list, the model error or any selection |
| ChatApp.ListenConsistent | src/App.js:154-189 | every event keeps the store consistent |
| ChatApp.ListenKeepsIds | src/App.js:155-171 | stream and chat events change no id, active id or persona |
| ChatApp.ActiveRewrite | src/App.js:40-51 | with distinct ids, a message update reaches the active session only |
| ChatApp.ChunkStep | src/App.js:160-161 | one chunk extends the streaming message at the end of the active session and changes nothing else |
| ChatApp.ChunksAccumulate | src/App.js:160-161 | a run of chunks extends the streaming message by their concatenated text and changes nothing else |
| ChatApp.ChunksFirst | src/App.js:160-161 | the first chunk and then the rest have the effect of all the chunks together |
| ChatApp.StartAppendsPlaceholder | src/App.js:155-159 | a stream start appends one empty streaming AI message to the active session and marks loading, streaming and connected |
| ChatApp.EndFinishesMessage | src/App.js:162-166 | an end clears `isStreaming` on its message, keeps its text, and stops loading and streaming; one flagged as an error sets the status `error`, any other keeps the status |
| ChatApp.StreamIntoActiveSession | src/App.js:155-166 | a full successful stream leaves one finished AI message holding all chunk text at the end of the active session, with nothing else changed |
| ChatApp.StreamEndToEnd | background.js:117-151 | the messages the background sends for a read body, handled by the listener, leave one finished AI message with the text of every delta line, in order, at the end of the active session |
| ChatApp.FirstPromptNotSent | src/App.js:337-351 | with no stored system prompt, the first message of a chat reaches the server as an empty `messages` array |
| ChatApp.IntendedHistory | src/App.js:341-343 | the history the comments describe: at most 11 messages, ending with the user's new message, preceded by the latest earlier ones |
| ChatApp.IntendedRequestCarriesPrompt | src/App.js:341-343 | with that history, the user's text is always the last entry of `messages`, as a `user` turn |
| ChatApp.ListenAllAppend | src/App.js:154-190 | events handled in two runs have the effect of one run |
| ChatApp.ChatStore.constructor | src/App.js:7-27 | the initial state values |
| ChatApp.ChatStore.Load | src/App.js:75-113 | loading installs the startup choice, merges stored global settings and replaces personas when stored |
| ChatApp.ChatStore.RequestModels | src/App.js:125-128 | with a runtime, the store goes to `connecting` and asks for models; without one, nothing happens |
| ChatApp.ChatStore.SetActiveSessionSelectedModel | src/App.js:53-57 | only the sessions list changes, by the selected-model setter |
| ChatApp.ChatStore.SetActiveSessionSystemPrompt | src/App.js:59-63 | only the sessions list changes, by the system-prompt setter |
| ChatApp.ChatStore.HandleGlobalSettingsChange | src/App.js:197-217 | the system prompt goes to the active session; other keys merge into the globals; an `apiUrl` change also clears the models and the model error, and asks again when a runtime exists |
| ChatApp.ChatStore.HandleAddNewSession | src/App.js:219-235 | appends the new session last and makes it active; it keeps the store consistent when the id is fresh |
| ChatApp.ChatStore.HandleSwitchSession | src/App.js:237-241 | the active id changes only to an existing id |
| ChatApp.ChatStore.HandleRenameSession | src/App.js:243-252 | a blank name is refused with an alert and no change; otherwise only the target's name changes, to the trimmed text |
| ChatApp.ChatStore.HandleDeleteSession | src/App.js:254-271 | one session or a declined confirmation changes nothing; otherwise the id's sessions go, the first remaining becomes active if the active one went, and at least one session remains |
| ChatApp.ChatStore.HandleSavePersona | src/App.js:273-299 | an empty field is refused with `false`; otherwise the list becomes `SavedPersonas` and the result is `true`, even when the overwrite was declined |
| ChatApp.ChatStore.HandleDeletePersona | src/App.js:301-317 | with confirmation, removes the personas with the id and clears the active prompt exactly when it equals the deleted prompt |
| ChatApp.ChatStore.HandleClearChat | src/App.js:375-379 | with confirmation, only the active session's messages are emptied |
| ChatApp.ChatStore.SendMessage | src/App.js:330-361 | blank input or no model sends nothing and posts only the notice when models exist; otherwise posts one `You` message, starts loading, clears the input and sends the last 11 messages read before the post |
| ChatApp.ChatStore.PostPrompt | src/App.js:337-360 | posts the user message and sends the request with the pre-post history, when a runtime exists |
| ChatApp.ChatStore.OnMessage | src/App.js:151-190 | the listener changes the store exactly as `Listen` says and keeps it consistent |
| ChatApp.SameIdsKeepConsistent | src/App.js:40-63 | rewriting sessions without changing their ids keeps the store consistent |
| ChatApp.DeletePersonaKeepsConsistent | src/App.js:301-317 | deleting a persona, with or without clearing the prompt, keeps the store consistent |
| ChatApp.PostKeepsConsistent | src/App.js:333-338 | posting to the active session keeps the store consistent |
| ChatApp.DeleteKeepsActive | src/App.js:262-268 | deleting from more than one distinct session leaves one, and an active id that was not deleted still names a session |
| ChatApp.RemovePersonaKeeps | src/App.js:306 | deleting personas keeps ids and names distinct |
| ChatApp.DropKeepsIds | src/App.js:306 | dropping one persona keeps the others' ids distinct |
| ChatApp.DropKeepsNames | src/App.js:306 | dropping one persona keeps the others' names distinct |

## Findings

| source | as written | input that shows it | evidently intended | confidence | as-written member | corrected member |
|---|---|---|---|---|---|---|
| src/App.js:341-343 | the history is read from the state before the user's message is posted, so the new text is never in it | the first message of a chat, with no stored system prompt: `messages` is `[]` | read the history after the post, so it ends with the new message (the comments at src/App.js:341, 343 and background.js:58) | high, not executed | ChatApp.FirstPromptNotSent | ChatApp.IntendedRequestCarriesPrompt |

`ChatApp.ChatStore.SendMessage` keeps the history as written, because that is what the program sends; `ChatApp.IntendedHistory` is the corrected history.

## Left out

- Storage: the `chrome.storage` reads and writes, and the persistence effects (src/App.js:66-147, background.js:11-24), are external I/O. Their results are parameters of `ChatStore.Load`, and in `Upstream` the settings are a value `ApiSettings`.
- The migration branches (src/App.js:81-89, 115-121) are not modelled. They read keys (`apiSettings`, `selectedModel`) that the storage request at src/App.js:68-74 never asks for, so they are dead code.
- `chrome.runtime` messaging, `fetch`, the promise chain around `reader.read()`, and `TextDecoder` are transport. They are modelled by their results: decoded text chunks, response outcomes, and event and request values.
- `JSON.parse` and the reading of `choices[0]?.delta?.content` are the `Parser` parameter. The JSON grammar is not modelled.
- `console` logging is left out because it has no effect on state.
- The simulated reply sent by `setTimeout` when no runtime exists (src/App.js:353-359) is left out because it is timer-driven. `SendMessage` then just sends nothing.
- The temperature, the token limit and the other global settings are opaque text, because their numerics are floating point (`parseFloat` in src/SettingsPanel.js).
- src/SettingsPanel.js is not part of this model: it is presentation. The root App.js, an earlier single-session prototype, is not part of this model either.
- React rendering, the scroll effect, the clipboard copy and its timeout (src/App.js:34-36, 319-328, 384-508) are presentation.
- React batching and stale closures are not modelled. Each handler reads one snapshot of the state, which is its closure's, and applies its updates to it in order.
- `handleKeyPress` (src/App.js:368-373) only calls `sendMessage`. `handleModelChange` (src/App.js:363-366) is `SetActiveSessionSelectedModel`.
- StreamDecoder.StreamReader: `Push`, `Done` and `ReadFailed` require an unfinished reader, because `reader.read()` yields nothing after `done` or a rejection.
- ChatApp.ChatStore.SendMessage: its contract does not restate `Consistent`. Both outcomes only post to the active session, and `ChatApp.PostKeepsConsistent` proves that this keeps the store consistent.
- ChatApp.ChatStore has no field for four state variables of src/App.js:7-27: `messages` (src/App.js:7, a leftover no handler of the core updates), `selectedModel` (src/App.js:10, superseded by each session's own selection), and `isSettingsOpen` and `copiedMessageId` (src/App.js:15-16, presentation only).
- Text.Trim and Text.ToLower are ASCII only. JavaScript's `trim` also removes non-ASCII white space such as U+00A0, U+FEFF and U+2028, and `toLowerCase` also maps non-ASCII capitals. So a name of only non-ASCII white space counts as non-blank here, and two persona names that differ only in a non-ASCII capital count as distinct.
- The request URLs (`${apiUrl}/models` and `${apiUrl}/chat/completions`, background.js:31, 79) are transport: the model starts from the response, not from `fetch`.
- ChatApp.ChatStore.HandleAddNewSession and HandleSavePersona keep `Consistent` only when the fresh id is new. `Date.now()` ids are assumed fresh and are not generated.
