/** The state of the popup component in src/App.js and the handlers that update it.
    The store is a class whose fields are the component's state variables; every
    handler is a method that changes them as the handler's setter calls do. */
module ChatApp {
  import opened Text
  import opened Wire
  import opened Sessions
  import Upstream
  import StreamDecoder

  /** `connectionStatus`: `'idle'`, `'connecting'`, `'connected'` or `'error'`. */
  datatype Connection = Idle | Connecting | Connected | Error

  /** A snapshot of every state variable, so that a handler can be specified as a
      function from the old snapshot to the new one. */
  datatype View = View(
    sessions: seq<Session>,
    activeSessionId: Option<string>,
    savedPersonas: seq<Persona>,
    globalApiSettings: map<string, string>,
    input: string,
    loading: bool,
    connectionStatus: Connection,
    streamingMessageId: Option<string>,
    availableModels: seq<string>,
    modelError: string)

  const DefaultGlobalSettings: map<string, string> :=
    map["apiUrl" := "http://127.0.0.1:1234/v1", "temperature" := "0.7", "maxTokens" := "1024"]

  const CurrentSystemPromptKey := "currentSystemPrompt"
  const ApiUrlKey := "apiUrl"

  const SelectModelFirst := "Please select a model first."
  const EmptySessionName := "Session name cannot be empty."
  const LastSessionKept := "Cannot delete the last session."
  const PersonaFieldsRequired := "Persona name and prompt text are required to save."

  /** The invariant the handlers keep: session ids are distinct, an active id names a
      session, and saved personas have distinct ids and case-insensitively distinct names. */
  predicate Consistent(v: View) {
    SessionsConsistent(v.sessions, v.activeSessionId) && PersonasConsistent(v.savedPersonas)
  }

  predicate PersonasConsistent(ps: seq<Persona>) {
    DistinctPersonaIds(ps) && DistinctPersonaNames(ps)
  }

  /** `activeSession?.selectedModel`, with a missing session read as `''`. */
  function SelectedModel(active: Option<Session>): string {
    if active.Some? then active.value.selectedModel else ""
  }

  /** `[...prev, m]` on the active session's messages. */
  function PostToActive(ss: seq<Session>, active: Option<string>, m: Message): seq<Session> {
    WithMessages(ss, active, (ms: seq<Message>) => ms + [m])
  }

  // ---------------------------------------------------------------------------
  // The runtime.onMessage listener

  /** The listener applied to one background event. It is only installed while the
      active id is truthy, so otherwise nothing changes. `sysId` is the fresh id of a
      `CHAT_ERROR` notice. The listener never switches session, never touches the
      personas, the global settings or the input, and never adds or removes a session. */
  function Listen(v: View, e: Event, sysId: string): (w: View)
    ensures w.activeSessionId == v.activeSessionId && w.savedPersonas == v.savedPersonas
    ensures w.globalApiSettings == v.globalApiSettings && w.input == v.input
    ensures |w.sessions| == |v.sessions|
  {
    if !Truthy(v.activeSessionId) then v
    else
      var active := v.activeSessionId;
      match e
      case ChatStreamStart(id) =>
        v.(sessions := PostToActive(v.sessions, active, Message(id, AI, "", true, false)),
           streamingMessageId := Some(id), loading := true, connectionStatus := Connected)
      case ChatStreamChunk(id, chunk) =>
        v.(sessions := WithMessages(v.sessions, active, (ms: seq<Message>) => AppendChunk(ms, id, chunk)))
      case ChatStreamEnd(id, failed) =>
        v.(sessions := WithMessages(v.sessions, active, (ms: seq<Message>) => EndStreaming(ms, id)),
           streamingMessageId := None, loading := false,
           connectionStatus := if failed then Error else v.connectionStatus)
      case ChatError(error) =>
        v.(sessions := PostToActive(v.sessions, active, Message(sysId, System, "Error: " + error, false, true)),
           loading := false, connectionStatus := Error, streamingMessageId := None)
      case ModelsList(models) =>
        v.(availableModels := models, modelError := "", connectionStatus := Connected,
           sessions := ModelsListSessions(v.sessions, active, models))
      case ModelsError(error) =>
        v.(modelError := error, availableModels := [], connectionStatus := Error)
  }

  /** The connection status after each kind of event. */
  lemma ListenStatus(v: View, e: Event, sysId: string)
    requires Truthy(v.activeSessionId)
    ensures var s := Listen(v, e, sysId).connectionStatus;
      && (e.ChatStreamStart? || e.ModelsList? ==> s == Connected)
      && (e.ChatError? || e.ModelsError? ==> s == Error)
      && (e.ChatStreamEnd? ==> s == if e.failed then Error else v.connectionStatus)
      && (e.ChatStreamChunk? ==> s == v.connectionStatus)
  {
  }

  /** Model events never touch messages; stream and chat events never touch the model
      list, the model error or any selection. */
  lemma ListenSeparatesConcerns(v: View, e: Event, sysId: string)
    ensures var w := Listen(v, e, sysId);
      && (e.ModelsError? ==> w.sessions == v.sessions)
      && (!e.ModelsList? && !e.ModelsError? ==>
            && w.availableModels == v.availableModels && w.modelError == v.modelError
            && |w.sessions| == |v.sessions|
            && forall i :: 0 <= i < |v.sessions| ==> w.sessions[i].selectedModel == v.sessions[i].selectedModel)
  {
  }

  /** The listener keeps the store consistent. */
  lemma ListenConsistent(v: View, e: Event, sysId: string)
    requires Consistent(v)
    ensures Consistent(Listen(v, e, sysId))
  {
    var w := Listen(v, e, sysId);
    if Truthy(v.activeSessionId) {
      if e.ModelsList? {
        ModelsListKeepsIds(v.sessions, v.activeSessionId, e.models);
      } else {
        ListenKeepsIds(v, e, sysId);
      }
      SameIdsConsistent(v.sessions, w.sessions, v.activeSessionId);
    }
  }

  /** Every event other than a model list only rewrites messages, so no id changes. */
  lemma ListenKeepsIds(v: View, e: Event, sysId: string)
    requires Truthy(v.activeSessionId) && !e.ModelsList?
    ensures SameIds(v.sessions, Listen(v, e, sysId).sessions)
    ensures Listen(v, e, sysId).activeSessionId == v.activeSessionId
    ensures Listen(v, e, sysId).savedPersonas == v.savedPersonas
  {
    var active := v.activeSessionId;
    match e
    case ChatStreamStart(id) =>
      SettersKeepIds(v.sessions, active, (ms: seq<Message>) => ms + [Message(id, AI, "", true, false)], "");
    case ChatStreamChunk(id, chunk) =>
      SettersKeepIds(v.sessions, active, (ms: seq<Message>) => AppendChunk(ms, id, chunk), "");
    case ChatStreamEnd(id, failed) =>
      SettersKeepIds(v.sessions, active, (ms: seq<Message>) => EndStreaming(ms, id), "");
    case ChatError(error) =>
      SettersKeepIds(v.sessions, active, (ms: seq<Message>) => ms + [Message(sysId, System, "Error: " + error, false, true)], "");
    case ModelsError(error) =>
  }

  /** Applying a sequence of events in order. */
  function ListenAll(v: View, es: seq<Event>, sysId: string): View
    decreases |es|
  {
    if es == [] then v else ListenAll(Listen(v, es[0], sysId), es[1..], sysId)
  }

  /** The text a sequence of chunk events carries. */
  function ChunkText(es: seq<Event>): string {
    if es == [] then ""
    else (if es[0].ChatStreamChunk? then es[0].chunk else "") + ChunkText(es[1..])
  }

  predicate ChunksFor(es: seq<Event>, id: string) {
    forall i :: 0 <= i < |es| ==> es[i].ChatStreamChunk? && es[i].messageId == id
  }

  /** The active session of `v` is the `k`-th session and its messages are `ms`. */
  predicate ActiveAt(v: View, k: nat, ms: seq<Message>) {
    && Truthy(v.activeSessionId) && DistinctSessionIds(v.sessions)
    && k < |v.sessions| && v.sessions[k].id == v.activeSessionId.value
    && v.sessions[k].messages == ms
  }

  /** `v` with the messages of its `k`-th session replaced by `ms`. */
  function SetMessagesAt(v: View, k: nat, ms: seq<Message>): View
    requires k < |v.sessions|
  {
    v.(sessions := v.sessions[k := v.sessions[k].(messages := ms)])
  }

  /** Replacing the active session's messages keeps it the active one, at the same place;
      a second replacement overrides the first. */
  lemma SetMessagesAtFacts(v: View, k: nat, a: seq<Message>, b: seq<Message>)
    requires ActiveAt(v, k, a)
    ensures ActiveAt(SetMessagesAt(v, k, b), k, b)
    ensures SetMessagesAt(SetMessagesAt(v, k, b), k, a) == v
  {
    assert SameIds(v.sessions, SetMessagesAt(v, k, b).sessions);
    assert SetMessagesAt(SetMessagesAt(v, k, b), k, a).sessions == v.sessions;
  }

  /** Chunks for a streaming message extend its text, one after the other; every other
      message and every other session and state variable stays. */
  lemma {:induction false} ChunksAccumulate(v: View, es: seq<Event>, sysId: string, k: nat,
                                            before: seq<Message>, streaming: Message)
    requires ActiveAt(v, k, before + [streaming]) && ChunksFor(es, streaming.id)
    requires forall j :: 0 <= j < |before| ==> before[j].id != streaming.id
    decreases |es|
    ensures ListenAll(v, es, sysId) == SetMessagesAt(v, k, before + [streaming.(text := streaming.text + ChunkText(es))])
  {
    if es == [] {
      SetMessagesAtFacts(v, k, before + [streaming], before + [streaming]);
      assert streaming.(text := streaming.text + "") == streaming;
    } else {
      var step := streaming.(text := streaming.text + es[0].chunk);
      SetMessagesAtFacts(v, k, before + [streaming], before + [step]);
      assert ChunksFor(es[1..], streaming.id);
      ChunksAccumulate(SetMessagesAt(v, k, before + [step]), es[1..], sysId, k, before, step);
      ChunksFirst(v, es, sysId, k, before, streaming);
    }
  }

  /** The inductive step of `ChunksAccumulate`: the first chunk, then the rest. */
  lemma ChunksFirst(v: View, es: seq<Event>, sysId: string, k: nat, before: seq<Message>, streaming: Message)
    requires ActiveAt(v, k, before + [streaming]) && |es| > 0 && ChunksFor(es, streaming.id)
    requires forall j :: 0 <= j < |before| ==> before[j].id != streaming.id
    requires var step := streaming.(text := streaming.text + es[0].chunk);
      var u := SetMessagesAt(v, k, before + [step]);
      ListenAll(u, es[1..], sysId) == SetMessagesAt(u, k, before + [step.(text := step.text + ChunkText(es[1..]))])
    ensures ListenAll(v, es, sysId) == SetMessagesAt(v, k, before + [streaming.(text := streaming.text + ChunkText(es))])
  {
    var chunk := es[0].chunk;
    var step := streaming.(text := streaming.text + chunk);
    var final := before + [streaming.(text := streaming.text + ChunkText(es))];
    ChunkStep(v, chunk, sysId, k, before, streaming);
    var u := SetMessagesAt(v, k, before + [step]);
    assert es[0] == ChatStreamChunk(streaming.id, chunk);
    assert ListenAll(v, es, sysId) == ListenAll(u, es[1..], sysId);
    assert ChunkText(es) == chunk + ChunkText(es[1..]);
    assert step.text + ChunkText(es[1..]) == streaming.text + (chunk + ChunkText(es[1..]));
    assert step.(text := step.text + ChunkText(es[1..])) == final[|before|];
    assert before + [step.(text := step.text + ChunkText(es[1..]))] == final;
    SetMessagesAtTwice(v, k, before + [step], final);
  }

  lemma SetMessagesAtTwice(v: View, k: nat, a: seq<Message>, b: seq<Message>)
    requires k < |v.sessions|
    ensures SetMessagesAt(SetMessagesAt(v, k, a), k, b) == SetMessagesAt(v, k, b)
  {
    assert SetMessagesAt(SetMessagesAt(v, k, a), k, b).sessions == SetMessagesAt(v, k, b).sessions;
  }

  /** A message-list update addressed to the active session touches its `k`-th session only. */
  lemma ActiveRewrite(v: View, k: nat, ms: seq<Message>, g: seq<Message> -> seq<Message>)
    requires ActiveAt(v, k, ms)
    ensures WithMessages(v.sessions, v.activeSessionId, g) == SetMessagesAt(v, k, g(ms)).sessions
  {
    var r := WithMessages(v.sessions, v.activeSessionId, g);
    var t := SetMessagesAt(v, k, g(ms)).sessions;
    forall i | 0 <= i < |v.sessions| ensures r[i] == t[i] {
      if i != k {
        assert v.sessions[i].id != v.sessions[k].id;
      }
    }
  }

  /** One chunk for the streaming message at the end of the active session. */
  lemma ChunkStep(v: View, chunk: string, sysId: string, k: nat, before: seq<Message>, streaming: Message)
    requires ActiveAt(v, k, before + [streaming])
    requires forall j :: 0 <= j < |before| ==> before[j].id != streaming.id
    ensures Listen(v, ChatStreamChunk(streaming.id, chunk), sysId)
      == SetMessagesAt(v, k, before + [streaming.(text := streaming.text + chunk)])
  {
    var id := streaming.id;
    var ms := before + [streaming];
    assert AppendChunk(ms, id, chunk) == before + [streaming.(text := streaming.text + chunk)] by {
      AppendChunkEffect(ms, id, chunk);
    }
    ActiveRewrite(v, k, ms, (ms: seq<Message>) => AppendChunk(ms, id, chunk));
  }

  /** A stream start appends the streaming placeholder to the active session only. */
  lemma StartAppendsPlaceholder(v: View, mid: string, sysId: string, k: nat, ms: seq<Message>)
    requires ActiveAt(v, k, ms)
    ensures Listen(v, ChatStreamStart(mid), sysId)
      == SetMessagesAt(v, k, ms + [Message(mid, AI, "", true, false)]).(
           streamingMessageId := Some(mid), loading := true, connectionStatus := Connected)
  {
    var m := Message(mid, AI, "", true, false);
    ActiveRewrite(v, k, ms, (ms: seq<Message>) => ms + [m]);
  }

  /** A stream end, successful or flagged as failed, clears `isStreaming` on its message,
      keeping the text, and stops loading and streaming; a failed one also sets the status
      `error`, and a successful one keeps the status. */
  lemma EndFinishesMessage(v: View, failed: bool, sysId: string, k: nat, ms: seq<Message>, m: Message)
    requires ActiveAt(v, k, ms + [m])
    requires forall j :: 0 <= j < |ms| ==> ms[j].id != m.id
    ensures Listen(v, ChatStreamEnd(m.id, failed), sysId)
      == SetMessagesAt(v, k, ms + [m.(isStreaming := false)]).(streamingMessageId := None, loading := false,
           connectionStatus := if failed then Error else v.connectionStatus)
  {
    assert EndStreaming(ms + [m], m.id) == ms + [m.(isStreaming := false)];
    ActiveRewrite(v, k, ms + [m], (ms: seq<Message>) => EndStreaming(ms, m.id));
  }

  /** A model list replaces the known list wholesale, clears the model error, sets the
      status `connected` and reconciles the active session's selection; nothing else
      changes. */
  lemma ModelsListEffect(v: View, models: seq<string>, sysId: string)
    requires Truthy(v.activeSessionId)
    ensures Listen(v, ModelsList(models), sysId)
      == v.(availableModels := models, modelError := "", connectionStatus := Connected,
            sessions := ModelsListSessions(v.sessions, v.activeSessionId, models))
  {
  }

  /** A complete successful stream, as the background sends it, leaves one finished AI
      message holding the text of all chunks at the end of the active session, and nothing
      else of the session list changes. */
  lemma StreamIntoActiveSession(v: View, mid: string, chunks: seq<Event>, sysId: string, k: nat, ms: seq<Message>)
    requires ActiveAt(v, k, ms) && ChunksFor(chunks, mid)
    requires forall j :: 0 <= j < |ms| ==> ms[j].id != mid
    ensures ListenAll(v, [ChatStreamStart(mid)] + chunks + [ChatStreamEnd(mid, false)], sysId)
      == SetMessagesAt(v, k, ms + [Message(mid, AI, ChunkText(chunks), false, false)]).(
           streamingMessageId := None, loading := false, connectionStatus := Connected)
  {
    var placeholder := Message(mid, AI, "", true, false);
    var filled := placeholder.(text := "" + ChunkText(chunks));
    var done := ms + [Message(mid, AI, ChunkText(chunks), false, false)];
    StartAppendsPlaceholder(v, mid, sysId, k, ms);
    var u := Listen(v, ChatStreamStart(mid), sysId);
    SetMessagesAtFacts(v, k, ms, ms + [placeholder]);
    assert ActiveAt(u, k, ms + [placeholder]);
    ChunksAccumulate(u, chunks, sysId, k, ms, placeholder);
    var x := ListenAll(u, chunks, sysId);
    SetMessagesAtFacts(u, k, ms + [placeholder], ms + [filled]);
    EndFinishesMessage(x, false, sysId, k, ms, filled);
    assert filled.(isStreaming := false) == Message(mid, AI, ChunkText(chunks), false, false);
    SetMessagesAtTwice(u, k, ms + [filled], done);
    SetMessagesAtTwice(v, k, ms + [placeholder], done);
    ListenAllAppend(v, [ChatStreamStart(mid)], chunks, sysId);
    ListenAllAppend(v, [ChatStreamStart(mid)] + chunks, [ChatStreamEnd(mid, false)], sysId);
    assert ListenAll(v, [ChatStreamStart(mid)], sysId) == u;
    assert ListenAll(x, [ChatStreamEnd(mid, false)], sysId) == Listen(x, ChatStreamEnd(mid, false), sysId);
  }

  /** A chat error posts one error-flagged `System` notice, `Error: <error>`, at the end of
      the active session, and stops loading and streaming with the status `error`. */
  lemma ChatErrorAppendsNotice(v: View, error: string, sysId: string, k: nat, ms: seq<Message>)
    requires ActiveAt(v, k, ms)
    ensures Listen(v, ChatError(error), sysId)
      == SetMessagesAt(v, k, ms + [Message(sysId, System, "Error: " + error, false, true)]).(
           loading := false, connectionStatus := Error, streamingMessageId := None)
  {
    var m := Message(sysId, System, "Error: " + error, false, true);
    ActiveRewrite(v, k, ms, (ms: seq<Message>) => ms + [m]);
  }

  /** A model error records its text, empties the model list and sets the status `error`;
      nothing else changes. */
  lemma ModelsErrorEffect(v: View, error: string, sysId: string)
    requires Truthy(v.activeSessionId)
    ensures Listen(v, ModelsError(error), sysId)
      == v.(modelError := error, availableModels := [], connectionStatus := Error)
  {
  }

  /** Both halves together: the messages the background sends for a successfully read
      body, handled by the listener, leave one finished AI message at the end of the
      active session holding the text of every delta line, in order. */
  lemma StreamEndToEnd(v: View, mid: string, parse: StreamDecoder.Parser, body: seq<string>,
                       sysId: string, k: nat, ms: seq<Message>)
    requires ActiveAt(v, k, ms)
    requires forall j :: 0 <= j < |ms| ==> ms[j].id != mid
    ensures var es := StreamDecoder.Events(mid, parse, StreamDecoder.Feed("", body).lines);
      ListenAll(v, StreamDecoder.Transcript(mid, parse, body), sysId)
        == SetMessagesAt(v, k, ms + [Message(mid, AI, ChunkText(es), false, false)]).(
             streamingMessageId := None, loading := false, connectionStatus := Connected)
  {
    var es := StreamDecoder.Events(mid, parse, StreamDecoder.Feed("", body).lines);
    StreamDecoder.EventsAreChunks(mid, parse, StreamDecoder.Feed("", body).lines);
    assert ChunksFor(es, mid) by {
      forall i | 0 <= i < |es| ensures es[i].ChatStreamChunk? && es[i].messageId == mid {
        assert es[i] in es;
      }
    }
    StreamIntoActiveSession(v, mid, es, sysId, k, ms);
  }

  // ---------------------------------------------------------------------------
  // The history of a chat request

  /** As written, `sendMessage` reads the history before its own post, so the first
      message of a chat, with no stored system prompt, reaches the server as an empty
      `messages` array: the typed text is in none of its entries. */
  lemma FirstPromptNotSent(settings: Upstream.ApiSettings, input: string, model: string, systemPrompt: string)
    requires AllSpace(settings.currentSystemPrompt)
    ensures Upstream.CompletionFor(settings, SendChatMessage(input, model, LastN([], 11), systemPrompt)).messages == []
  {
    TrimEmptyIffBlank(settings.currentSystemPrompt);
  }

  /** The history the comment at `sendMessage` describes: the last 11 messages read after
      the user's message was posted, so that message is always the last one sent. */
  function IntendedHistory(ms: seq<Message>, userMessage: Message): (history: seq<Message>)
    ensures 0 < |history| <= 11 && |history| - 1 <= |ms| && history[|history| - 1] == userMessage
    ensures history[..|history| - 1] == ms[|ms| - (|history| - 1)..]
  {
    LastN(ms + [userMessage], 11)
  }

  /** With the intended history the user's text is always the last entry of the request's
      `messages` array, as a `user` turn. */
  lemma IntendedRequestCarriesPrompt(settings: Upstream.ApiSettings, ms: seq<Message>, userId: string,
                                     input: string, model: string, systemPrompt: string)
    ensures var u := Message(userId, You, input, false, false);
      var body := Upstream.CompletionFor(settings, SendChatMessage(input, model, IntendedHistory(ms, u), systemPrompt));
      |body.messages| > 0 && body.messages[|body.messages| - 1] == Upstream.ApiMessage(Upstream.UserRole, input)
  {
    var u := Message(userId, You, input, false, false);
    var h := IntendedHistory(ms, u);
    Upstream.FormatHistoryLast(h);
    Upstream.ApiMessagesLast(settings.currentSystemPrompt, h);
  }

  lemma {:induction false} ListenAllAppend(v: View, a: seq<Event>, b: seq<Event>, sysId: string)
    ensures ListenAll(v, a + b, sysId) == ListenAll(ListenAll(v, a, sysId), b, sysId)
    decreases |a|
  {
    if a == [] {
      assert a + b == b;
    } else {
      assert (a + b)[0] == a[0] && (a + b)[1..] == a[1..] + b;
      ListenAllAppend(Listen(v, a[0], sysId), a[1..], b, sysId);
    }
  }

  // ---------------------------------------------------------------------------
  // The store

  class ChatStore {
    var sessions: seq<Session>
    var activeSessionId: Option<string>
    var savedPersonas: seq<Persona>
    var globalApiSettings: map<string, string>
    var input: string
    var loading: bool
    var connectionStatus: Connection
    var streamingMessageId: Option<string>
    var availableModels: seq<string>
    var modelError: string

    function State(): View
      reads this
    {
      View(sessions, activeSessionId, savedPersonas, globalApiSettings, input, loading,
           connectionStatus, streamingMessageId, availableModels, modelError)
    }

    /** `activeSession`, as the handlers read it from the last render. */
    function ActiveSession(): Option<Session>
      reads this
    {
      FindSession(sessions, activeSessionId)
    }

    /** The initial `useState` values. */
    constructor ()
      ensures State() == View([], None, [], DefaultGlobalSettings, "", false, Idle, None, [], "")
    {
      sessions, activeSessionId, savedPersonas := [], None, [];
      globalApiSettings, input, loading := DefaultGlobalSettings, "", false;
      connectionStatus, streamingMessageId, availableModels, modelError := Idle, None, [], "";
    }

    /** The storage callback of the mount effect: stored sessions, merged global settings,
        stored personas and the startup choice of active session. */
    method Load(stored: seq<Session>, storedActive: Option<string>, storedSettings: Option<map<string, string>>,
                storedPersonas: Option<seq<Persona>>, freshId: string)
      modifies this
      ensures var start := StartupChoice(stored, storedActive, freshId);
        State() == old(State()).(
          sessions := start.sessions, activeSessionId := start.activeSessionId,
          globalApiSettings := if storedSettings.Some? then old(globalApiSettings) + storedSettings.value else old(globalApiSettings),
          savedPersonas := if storedPersonas.Some? then storedPersonas.value else old(savedPersonas))
    {
      var start := StartupChoice(stored, storedActive, freshId);
      sessions := start.sessions;
      if storedSettings.Some? {
        globalApiSettings := globalApiSettings + storedSettings.value;
      }
      if storedPersonas.Some? {
        savedPersonas := storedPersonas.value;
      }
      activeSessionId := start.activeSessionId;
    }

    /** The model request of the mount effect, sent when the runtime is available. */
    method RequestModels(runtimeAvailable: bool) returns (sent: Option<Request>)
      modifies this
      ensures sent == if runtimeAvailable then Some(GetModels) else None
      ensures State() == old(State()).(connectionStatus := if runtimeAvailable then Connecting else old(connectionStatus))
    {
      sent := None;
      if runtimeAvailable {
        connectionStatus := Connecting;
        sent := Some(GetModels);
      }
    }

    /** `setActiveSessionSelectedModel`, also used by `handleModelChange`. */
    method SetActiveSessionSelectedModel(modelId: string)
      modifies this
      ensures State() == old(State()).(sessions := WithSelectedModel(old(sessions), activeSessionId, modelId))
    {
      sessions := WithSelectedModel(sessions, activeSessionId, modelId);
    }

    method SetActiveSessionSystemPrompt(promptText: string)
      modifies this
      ensures State() == old(State()).(sessions := WithSystemPrompt(old(sessions), activeSessionId, promptText))
    {
      sessions := WithSystemPrompt(sessions, activeSessionId, promptText);
    }

    /** `handleGlobalSettingsChange`: the system prompt goes to the active session; any
        other key is merged into the global settings, and a new API address also drops
        the model list and asks for a fresh one. */
    method HandleGlobalSettingsChange(settingName: string, value: string, runtimeAvailable: bool)
      returns (sent: Option<Request>)
      modifies this
      ensures settingName == CurrentSystemPromptKey ==>
        sent.None? && State() == old(State()).(sessions := WithSystemPrompt(old(sessions), activeSessionId, value))
      ensures settingName != CurrentSystemPromptKey && settingName != ApiUrlKey ==>
        sent.None? && State() == old(State()).(globalApiSettings := old(globalApiSettings)[settingName := value])
      ensures settingName == ApiUrlKey ==>
        && sent == (if runtimeAvailable then Some(GetModels) else None)
        && State() == old(State()).(globalApiSettings := old(globalApiSettings)[settingName := value],
                                    availableModels := [], modelError := "",
                                    connectionStatus := if runtimeAvailable then Connecting else Idle)
    {
      sent := None;
      if settingName == CurrentSystemPromptKey {
        SetActiveSessionSystemPrompt(value);
      } else {
        globalApiSettings := globalApiSettings[settingName := value];
        if settingName == ApiUrlKey {
          availableModels := [];
          modelError := "";
          connectionStatus := Idle;
          if runtimeAvailable {
            connectionStatus := Connecting;
            sent := Some(GetModels);
          }
        }
      }
    }

    /** `handleAddNewSession`: appends `Chat <n+1>` with a fresh id, inheriting the active
        session's model and prompt, and makes it active. */
    method HandleAddNewSession(freshId: string)
      modifies this
      ensures State() == old(State()).(sessions := old(sessions) + [NewSession(old(sessions), old(ActiveSession()), freshId)],
                                       activeSessionId := Some(freshId))
      ensures old(Consistent(State())) && !HasSession(old(sessions), freshId) ==> Consistent(State())
    {
      var s := NewSession(sessions, ActiveSession(), freshId);
      sessions := sessions + [s];
      activeSessionId := Some(freshId);
      assert sessions[|sessions| - 1].id == freshId;
    }

    /** `handleSwitchSession`: only an existing id becomes active. */
    method HandleSwitchSession(sessionId: string)
      modifies this
      ensures HasSession(old(sessions), sessionId) ==> State() == old(State()).(activeSessionId := Some(sessionId))
      ensures !HasSession(old(sessions), sessionId) ==> State() == old(State())
      ensures old(Consistent(State())) ==> Consistent(State())
    {
      if FindSession(sessions, Some(sessionId)).Some? {
        activeSessionId := Some(sessionId);
      }
    }

    /** `handleRenameSession`: a name blank after trimming is refused with an alert;
        otherwise the target gets the trimmed name. */
    method HandleRenameSession(sessionId: string, newName: string) returns (alert: Option<string>)
      modifies this
      ensures AllSpace(newName) ==> alert == Some(EmptySessionName) && State() == old(State())
      ensures !AllSpace(newName) ==> alert.None? && State() == old(State()).(sessions := Renamed(old(sessions), sessionId, newName))
      ensures old(Consistent(State())) ==> Consistent(State())
    {
      TrimEmptyIffBlank(newName);
      if Trim(newName) == "" {
        alert := Some(EmptySessionName);
        return;
      }
      alert := None;
      ghost var v := State();
      var renamed := Renamed(sessions, sessionId, newName);
      RenamedKeepsIds(sessions, sessionId, newName);
      SameIdsKeepConsistent(v, renamed);
      sessions := renamed;
      assert State() == v.(sessions := renamed);
    }

    /** `handleDeleteSession`: the last session is never deleted; a declined confirmation
        changes nothing; otherwise sessions with the id are removed and, when the active
        one went, the first remaining session becomes active. */
    method HandleDeleteSession(sessionId: string, confirmed: bool) returns (alert: Option<string>)
      modifies this
      ensures |old(sessions)| <= 1 ==> alert == Some(LastSessionKept) && State() == old(State())
      ensures |old(sessions)| > 1 && !confirmed ==> alert.None? && State() == old(State())
      ensures |old(sessions)| > 1 && confirmed ==>
        var rest := RemoveSession(old(sessions), sessionId);
        && alert.None?
        && State() == old(State()).(
             sessions := rest,
             activeSessionId := if old(activeSessionId) == Some(sessionId)
                                then (if |rest| > 0 then Some(rest[0].id) else None)
                                else old(activeSessionId))
      ensures old(Consistent(State())) ==> Consistent(State())
      ensures |old(sessions)| >= 1 && old(DistinctSessionIds(sessions)) ==> |sessions| >= 1
    {
      alert := None;
      if |sessions| <= 1 {
        alert := Some(LastSessionKept);
        return;
      }
      if !confirmed {
        return;
      }
      var rest := RemoveSession(sessions, sessionId);
      if DistinctSessionIds(sessions) {
        RemoveSessionCount(sessions, sessionId);
      }
      if Consistent(State()) {
        DeleteKeepsActive(sessions, activeSessionId, sessionId);
      }
      sessions := rest;
      if activeSessionId == Some(sessionId) {
        activeSessionId := if |rest| > 0 then Some(rest[0].id) else None;
      }
    }

    /** `handleSavePersona`: an empty name or prompt is refused with an alert and `false`;
        otherwise the list is updated by `SavedPersonas` and the result is `true`, even when
        the overwrite was declined. */
    method HandleSavePersona(name: string, prompt: string, confirmed: bool, freshId: string)
      returns (saved: bool, alert: Option<string>)
      modifies this
      ensures (name == "" || prompt == "") ==> !saved && alert == Some(PersonaFieldsRequired) && State() == old(State())
      ensures name != "" && prompt != "" ==>
        saved && alert.None? && State() == old(State()).(savedPersonas := SavedPersonas(old(savedPersonas), name, prompt, confirmed, freshId))
      ensures old(Consistent(State())) && (forall j :: 0 <= j < |old(savedPersonas)| ==> old(savedPersonas)[j].id != freshId)
        ==> Consistent(State())
    {
      if name == "" || prompt == "" {
        saved, alert := false, Some(PersonaFieldsRequired);
        return;
      }
      if Consistent(State()) && forall j :: 0 <= j < |savedPersonas| ==> savedPersonas[j].id != freshId {
        SavedPersonasInvariant(savedPersonas, name, prompt, confirmed, freshId);
      }
      savedPersonas := SavedPersonas(savedPersonas, name, prompt, confirmed, freshId);
      saved, alert := true, None;
    }

    /** `handleDeletePersona`: with confirmation, removes the personas with the id and
        clears the active session's prompt when it is the deleted persona's text. */
    method HandleDeletePersona(personaId: string, confirmed: bool)
      modifies this
      ensures !confirmed ==> State() == old(State())
      ensures confirmed ==>
        var deleted := FindPersona(old(savedPersonas), personaId);
        var clears := old(ActiveSession()).Some? && deleted.Some?
                      && old(ActiveSession()).value.currentSystemPrompt == deleted.value.prompt;
        State() == old(State()).(
          savedPersonas := RemovePersona(old(savedPersonas), personaId),
          sessions := if clears then WithSystemPrompt(old(sessions), activeSessionId, "") else old(sessions))
      ensures old(Consistent(State())) ==> Consistent(State())
    {
      if !confirmed {
        return;
      }
      ghost var v := State();
      var deleted := FindPersona(savedPersonas, personaId);
      var activeSession := ActiveSession();
      var clears := activeSession.Some? && deleted.Some? && activeSession.value.currentSystemPrompt == deleted.value.prompt;
      DeletePersonaKeepsConsistent(v, personaId, clears);
      savedPersonas := RemovePersona(savedPersonas, personaId);
      if clears {
        sessions := WithSystemPrompt(sessions, activeSessionId, "");
      }
      assert State() == v.(savedPersonas := RemovePersona(v.savedPersonas, personaId),
                           sessions := if clears then WithSystemPrompt(v.sessions, v.activeSessionId, "") else v.sessions);
    }

    /** `handleClearChat`: with confirmation the active session's messages are emptied. */
    method HandleClearChat(confirmed: bool)
      modifies this
      ensures !confirmed ==> State() == old(State())
      ensures confirmed ==> State() == old(State()).(sessions := WithMessages(old(sessions), activeSessionId, (ms: seq<Message>) => []))
      ensures old(Consistent(State())) ==> Consistent(State())
    {
      if confirmed {
        ghost var v := State();
        var cleared := WithMessages(sessions, activeSessionId, (ms: seq<Message>) => []);
        SettersKeepIds(sessions, activeSessionId, (ms: seq<Message>) => [], "");
        SameIdsKeepConsistent(v, cleared);
        sessions := cleared;
        assert State() == v.(sessions := cleared);
      }
    }

    /** `sendMessage`. A blank input or a missing model sends nothing; a notice is posted
        only when the model is missing and models are available. Otherwise the input is
        posted as a `You` message, loading starts, the input is cleared and the request
        carries the last 11 messages of the session as read before the post. Both
        outcomes only post to the active session, so `PostKeepsConsistent` keeps the
        store consistent. */
    method SendMessage(userId: string, sysId: string, runtimeAvailable: bool) returns (sent: Option<Request>)
      modifies this
      ensures var model := SelectedModel(old(ActiveSession()));
        (AllSpace(old(input)) || model == "") ==> sent.None? && State() == old(State()).(sessions :=
          if model == "" && |old(availableModels)| > 0
          then PostToActive(old(sessions), old(activeSessionId), Message(sysId, System, SelectModelFirst, false, true))
          else old(sessions))
      ensures var model := SelectedModel(old(ActiveSession()));
        (!AllSpace(old(input)) && model != "") ==> State() == old(State()).(
          sessions := PostToActive(old(sessions), old(activeSessionId), Message(userId, You, old(input), false, false)),
          loading := true, input := "")
      ensures var active := old(ActiveSession());
        (!AllSpace(old(input)) && SelectedModel(active) != "") ==> sent == if runtimeAvailable
          then Some(SendChatMessage(old(input), active.value.selectedModel, LastN(active.value.messages, 11),
                                    active.value.currentSystemPrompt))
          else None
    {
      var activeSession := ActiveSession();
      var model := SelectedModel(activeSession);
      TrimEmptyIffBlank(input);
      sent := None;
      if Trim(input) == "" || model == "" {
        if model == "" && |availableModels| > 0 {
          var notice := Message(sysId, System, SelectModelFirst, false, true);
          sessions := PostToActive(sessions, activeSessionId, notice);
        }
        return;
      }
      sent := PostPrompt(activeSession.value, userId, runtimeAvailable);
    }

    /** The second half of `sendMessage`, once the guard has passed for the active
        session `active`. */
    method PostPrompt(active: Session, userId: string, runtimeAvailable: bool) returns (sent: Option<Request>)
      modifies this
      ensures State() == old(State()).(
        sessions := PostToActive(old(sessions), old(activeSessionId), Message(userId, You, old(input), false, false)),
        loading := true, input := "")
      ensures sent == if runtimeAvailable
        then Some(SendChatMessage(old(input), active.selectedModel, LastN(active.messages, 11), active.currentSystemPrompt))
        else None
    {
      var userMessage := Message(userId, You, input, false, false);
      sessions := PostToActive(sessions, activeSessionId, userMessage);
      loading := true;
      var history := LastN(active.messages, 11);
      sent := None;
      if runtimeAvailable {
        sent := Some(SendChatMessage(userMessage.text, active.selectedModel, history, active.currentSystemPrompt));
      }
      input := "";
    }

    /** The listener installed by the effect, applied to one event. */
    method OnMessage(e: Event, sysId: string)
      modifies this
      ensures State() == Listen(old(State()), e, sysId)
      ensures old(Consistent(State())) ==> Consistent(State())
    {
      var w := Listen(State(), e, sysId);
      if Consistent(State()) {
        ListenConsistent(State(), e, sysId);
      }
      Store(w);
    }

    /** Replaces the whole state, as the batched setters of one handler do. */
    method Store(w: View)
      modifies this
      ensures State() == w
    {
      sessions, activeSessionId, savedPersonas, globalApiSettings := w.sessions, w.activeSessionId, w.savedPersonas, w.globalApiSettings;
      input, loading, connectionStatus := w.input, w.loading, w.connectionStatus;
      streamingMessageId, availableModels, modelError := w.streamingMessageId, w.availableModels, w.modelError;
    }
  }

  /** Rewriting the sessions without changing their ids keeps the store consistent. */
  lemma SameIdsKeepConsistent(v: View, ss: seq<Session>)
    requires SameIds(v.sessions, ss)
    ensures Consistent(v) ==> Consistent(v.(sessions := ss))
  {
    if Consistent(v) {
      SameIdsConsistent(v.sessions, ss, v.activeSessionId);
    }
  }

  /** Deleting a persona, and clearing the active prompt or not, keeps the store consistent. */
  lemma DeletePersonaKeepsConsistent(v: View, personaId: string, clears: bool)
    ensures Consistent(v) ==> Consistent(v.(savedPersonas := RemovePersona(v.savedPersonas, personaId),
                                            sessions := if clears then WithSystemPrompt(v.sessions, v.activeSessionId, "") else v.sessions))
  {
    if Consistent(v) {
      RemovePersonaKeeps(v.savedPersonas, personaId);
      SettersKeepIds(v.sessions, v.activeSessionId, (ms: seq<Message>) => ms, "");
      SameIdsConsistent(v.sessions, WithSystemPrompt(v.sessions, v.activeSessionId, ""), v.activeSessionId);
    }
  }

  /** Posting a message to the active session keeps the store consistent. */
  lemma PostKeepsConsistent(v: View, m: Message)
    requires Consistent(v)
    ensures Consistent(v.(sessions := PostToActive(v.sessions, v.activeSessionId, m)))
  {
    SettersKeepIds(v.sessions, v.activeSessionId, (ms: seq<Message>) => ms + [m], "");
    SameIdsConsistent(v.sessions, PostToActive(v.sessions, v.activeSessionId, m), v.activeSessionId);
  }

  /** After a delete of distinct sessions that leaves at least one, the active id still
      names a session: the kept one, or the first remaining. */
  lemma DeleteKeepsActive(ss: seq<Session>, active: Option<string>, id: string)
    requires DistinctSessionIds(ss) && |ss| > 1
    requires active.Some? ==> HasSession(ss, active.value)
    ensures var rest := RemoveSession(ss, id);
      && |rest| >= 1
      && (active.Some? && active != Some(id) ==> HasSession(rest, active.value))
  {
    RemoveSessionCount(ss, id);
    var rest := RemoveSession(ss, id);
    WithoutMembers(ss, (s: Session) => s.id, id);
    if active.Some? && active != Some(id) {
      var k :| 0 <= k < |ss| && ss[k].id == active.value;
      assert ss[k] in rest;
    }
  }

  /** Removing personas keeps ids and names distinct. */
  lemma RemovePersonaKeeps(ps: seq<Persona>, id: string)
    requires DistinctPersonaIds(ps) && DistinctPersonaNames(ps)
    ensures DistinctPersonaIds(RemovePersona(ps, id)) && DistinctPersonaNames(RemovePersona(ps, id))
  {
    var key := (p: Persona) => p.id;
    var i := FindPersona(ps, id);
    if i.None? {
      WithoutAbsent(ps, key, id);
    } else {
      var k :| 0 <= k < |ps| && ps[k] == i.value;
      WithoutAt(ps, key, k);
      DropKeepsIds(ps, k);
      DropKeepsNames(ps, k);
    }
  }

  /** Dropping one persona keeps the others' ids distinct. */
  lemma DropKeepsIds(ps: seq<Persona>, k: nat)
    requires k < |ps| && DistinctPersonaIds(ps)
    ensures DistinctPersonaIds(ps[..k] + ps[k + 1..])
  {
    var r := ps[..k] + ps[k + 1..];
    forall a, b | 0 <= a < b < |r| ensures r[a].id != r[b].id {
      var a', b' := if a < k then a else a + 1, if b < k then b else b + 1;
      assert r[a] == ps[a'] && r[b] == ps[b'];
    }
  }

  /** Dropping one persona keeps the others' names distinct. */
  lemma DropKeepsNames(ps: seq<Persona>, k: nat)
    requires k < |ps| && DistinctPersonaNames(ps)
    ensures DistinctPersonaNames(ps[..k] + ps[k + 1..])
  {
    var r := ps[..k] + ps[k + 1..];
    forall a, b | 0 <= a < b < |r| ensures !SameIgnoringCase(r[a].name, r[b].name) {
      var a', b' := if a < k then a else a + 1, if b < k then b else b + 1;
      assert r[a] == ps[a'] && r[b] == ps[b'];
    }
  }
}
