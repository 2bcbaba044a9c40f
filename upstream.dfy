/** What background.js sends to the model server and what it makes of the replies that
    are not a stream: the `messages` array of a chat-completion request, the error
    strings for non-OK responses, and the model list. */
module Upstream {
  import opened Text
  import opened Wire

  /** `getApiSettings()`: the stored `apiSettings` over the defaults. Temperature and
      token limit are carried as opaque text. */
  datatype ApiSettings = ApiSettings(apiUrl: string, temperature: string, maxTokens: string, currentSystemPrompt: string)

  /** `DEFAULT_API_SETTINGS`. */
  const DefaultApiSettings: ApiSettings := ApiSettings("http://127.0.0.1:1234/v1", "0.7", "1024", "")

  /** The stored `apiSettings` record; a field it does not have is `None`. */
  datatype StoredApiSettings = StoredApiSettings(
    apiUrl: Option<string>, temperature: Option<string>, maxTokens: Option<string>, currentSystemPrompt: Option<string>)

  function Override(stored: Option<string>, default: string): string {
    if stored.Some? then stored.value else default
  }

  /** `getApiSettings()`: `{ ...DEFAULT_API_SETTINGS, ...result.apiSettings }`. `None` stands
      for every path that returns the defaults: no `apiSettings` stored, storage missing, or
      a failed read. */
  function GetApiSettings(stored: Option<StoredApiSettings>): ApiSettings {
    if stored.None? then DefaultApiSettings
    else
      var s := stored.value;
      ApiSettings(Override(s.apiUrl, DefaultApiSettings.apiUrl), Override(s.temperature, DefaultApiSettings.temperature),
                  Override(s.maxTokens, DefaultApiSettings.maxTokens),
                  Override(s.currentSystemPrompt, DefaultApiSettings.currentSystemPrompt))
  }

  /** With no stored `apiSettings` record every chat request is built from the defaults:
      no system entry, temperature `0.7` and a 1024-token limit, whatever the popup holds. */
  lemma NoStoredSettingsRequest(request: Request)
    requires request.SendChatMessage?
    ensures var body := CompletionFor(GetApiSettings(None), request);
      && body.messages == FormatHistory(request.history)
      && body.temperature == "0.7" && body.maxTokens == "1024"
  {
  }

  /** The `role` of an upstream message: `'system'`, `'user'` or `'assistant'`. */
  datatype Role = SystemRole | UserRole | AssistantRole

  datatype ApiMessage = ApiMessage(role: Role, content: string)

  // ---------------------------------------------------------------------------
  // The messages array

  /** The filter of the history: only `You` and `AI` entries go upstream. */
  predicate IsTurn(m: Message) {
    m.sender == You || m.sender == AI
  }

  /** The map of the history: `You` becomes `user`, `AI` becomes `assistant`. */
  function ToApi(m: Message): ApiMessage
    requires IsTurn(m)
  {
    ApiMessage(if m.sender == You then UserRole else AssistantRole, m.text)
  }

  /** `history.filter(...).map(...)`. */
  function FormatHistory(history: seq<Message>): seq<ApiMessage> {
    if history == [] then []
    else (if IsTurn(history[0]) then [ToApi(history[0])] else []) + FormatHistory(history[1..])
  }

  /** Number of `You` and `AI` entries. */
  function CountTurns(history: seq<Message>): nat {
    if history == [] then 0 else (if IsTurn(history[0]) then 1 else 0) + CountTurns(history[1..])
  }

  /** The formatted history has one entry per `You`/`AI` message and never a system entry. */
  lemma {:induction false} FormatHistoryShape(history: seq<Message>)
    ensures |FormatHistory(history)| == CountTurns(history)
    ensures forall k :: 0 <= k < |FormatHistory(history)| ==> FormatHistory(history)[k].role != SystemRole
  {
    if history != [] {
      FormatHistoryShape(history[1..]);
    }
  }

  /** Every formatted entry is the mapped form of some `You`/`AI` message. */
  lemma {:induction false} FormatHistoryEntries(history: seq<Message>)
    ensures forall k :: 0 <= k < |FormatHistory(history)| ==>
      exists i :: 0 <= i < |history| && IsTurn(history[i]) && FormatHistory(history)[k] == ToApi(history[i])
  {
    if history != [] {
      FormatHistoryEntries(history[1..]);
      var head: seq<ApiMessage> := if IsTurn(history[0]) then [ToApi(history[0])] else [];
      var rest := FormatHistory(history[1..]);
      var f := FormatHistory(history);
      assert f == head + rest;
      forall k | 0 <= k < |FormatHistory(history)|
        ensures exists i :: 0 <= i < |history| && IsTurn(history[i]) && FormatHistory(history)[k] == ToApi(history[i])
      {
        if k < |head| {
          assert f[k] == ToApi(history[0]);
        } else {
          assert f[k] == rest[k - |head|];
          var j :| 0 <= j < |history[1..]| && IsTurn(history[1..][j]) && rest[k - |head|] == ToApi(history[1..][j]);
          assert history[j + 1] == history[1..][j];
        }
      }
    } else {
      assert FormatHistory(history) == [];
    }
  }

  /** Formatting keeps the original order: it distributes over concatenation. */
  lemma {:induction false} FormatHistoryAppend(a: seq<Message>, b: seq<Message>)
    ensures FormatHistory(a + b) == FormatHistory(a) + FormatHistory(b)
  {
    if a == [] {
      assert a + b == b;
    } else {
      assert (a + b)[0] == a[0];
      assert (a + b)[1..] == a[1..] + b;
      FormatHistoryAppend(a[1..], b);
      var head: seq<ApiMessage> := if IsTurn(a[0]) then [ToApi(a[0])] else [];
      var x, y := FormatHistory(a[1..]), FormatHistory(b);
      assert FormatHistory(a + b) == head + (x + y);
      assert FormatHistory(a) == head + x;
      assert head + (x + y) == (head + x) + y;
    }
  }

  /** A history whose last message is a turn formats to entries ending with that turn. */
  lemma FormatHistoryLast(history: seq<Message>)
    requires |history| > 0 && IsTurn(history[|history| - 1])
    ensures var f := FormatHistory(history); |f| > 0 && f[|f| - 1] == ToApi(history[|history| - 1])
  {
    var last := history[|history| - 1];
    var before := history[..|history| - 1];
    assert history == before + [last];
    FormatHistoryAppend(before, [last]);
    assert FormatHistory([last]) == [ToApi(last)] by {
      assert [last][1..] == [];
    }
  }

  /** `settings.currentSystemPrompt && settings.currentSystemPrompt.trim() !== ''`. */
  predicate HasSystemPrompt(prompt: string) {
    prompt != "" && Trim(prompt) != ""
  }

  /** The `apiMessages` array as a value. */
  function ApiMessages(prompt: string, history: seq<Message>): seq<ApiMessage> {
    (if HasSystemPrompt(prompt) then [ApiMessage(SystemRole, Trim(prompt))] else []) + FormatHistory(history)
  }

  /** The formatted history comes last in `apiMessages`, so its final entry is the array's. */
  lemma ApiMessagesLast(prompt: string, history: seq<Message>)
    requires |FormatHistory(history)| > 0
    ensures var a := ApiMessages(prompt, history); var f := FormatHistory(history);
      |a| > 0 && a[|a| - 1] == f[|f| - 1]
  {
  }

  /** Builds `apiMessages` as the listener does, with a `push` and a `concat`. It starts
      with a system entry holding the trimmed stored prompt exactly when that prompt is
      not blank; the formatted history follows. */
  method BuildApiMessages(prompt: string, history: seq<Message>) returns (apiMessages: seq<ApiMessage>)
    ensures apiMessages == ApiMessages(prompt, history)
    ensures |apiMessages| == (if AllSpace(prompt) then 0 else 1) + CountTurns(history)
    ensures (|apiMessages| > 0 && apiMessages[0].role == SystemRole) <==> !AllSpace(prompt)
    ensures !AllSpace(prompt) ==> apiMessages[0] == ApiMessage(SystemRole, Trim(prompt))
    ensures apiMessages[|apiMessages| - CountTurns(history)..] == FormatHistory(history)
  {
    apiMessages := [];
    TrimEmptyIffBlank(prompt);
    if prompt != "" && Trim(prompt) != "" {
      apiMessages := apiMessages + [ApiMessage(SystemRole, Trim(prompt))];
    }
    var formattedHistory := FormatHistory(history);
    FormatHistoryShape(history);
    ghost var head := apiMessages;
    assert |head| == if AllSpace(prompt) then 0 else 1;
    apiMessages := apiMessages + formattedHistory;
    assert apiMessages[|head|..] == formattedHistory;
    if |formattedHistory| > 0 && head == [] {
      assert apiMessages[0] == formattedHistory[0];
    }
  }

  /** The JSON body of the chat-completion POST. */
  datatype CompletionBody = CompletionBody(
    messages: seq<ApiMessage>, model: string, temperature: string, maxTokens: string, stream: bool)

  /** The request body for a `SEND_CHAT_MESSAGE`: the system prompt comes from the stored
      settings; the request's own `prompt` and `systemPrompt` are not read. */
  function CompletionFor(settings: ApiSettings, request: Request): (body: CompletionBody)
    requires request.SendChatMessage?
    ensures body.stream && body.model == request.model
    ensures body.messages == ApiMessages(settings.currentSystemPrompt, request.history)
    ensures body.temperature == settings.temperature && body.maxTokens == settings.maxTokens
  {
    CompletionBody(ApiMessages(settings.currentSystemPrompt, request.history),
                   request.model, settings.temperature, settings.maxTokens, true)
  }

  /** Two requests that differ only in `prompt` and `systemPrompt` produce the same body. */
  lemma PopupPromptIgnored(settings: ApiSettings, r1: Request, r2: Request)
    requires r1.SendChatMessage? && r2.SendChatMessage?
    requires r1.model == r2.model && r1.history == r2.history
    ensures CompletionFor(settings, r1) == CompletionFor(settings, r2)
  {
  }

  // ---------------------------------------------------------------------------
  // Error strings for non-OK responses

  /** What `response.json()` gave for a non-OK response: a rejection, or a document
      whose `error.message` and `message` fields are text (`""` when missing or falsy). */
  datatype ErrorBody = Unparsable | Parsed(errorMessage: string, message: string)

  /** Why the `response.json().then(...)` chain rejected before its `catch`: the body
      was not JSON, or the `.then` handler threw with a reason taken from the body. */
  datatype Rejection = JsonRejected | Thrown(reason: string)

  /** `.catch(() => { throw new Error(replacement) })`: whatever the earlier rejection
      was, the chain now rejects with the replacement. */
  function CatchAll(rejection: Rejection, replacement: string): string {
    replacement
  }

  /** The models request's `.then` handler: `err.error?.message || err.message ||
      'Failed to fetch models (<status>)'`. */
  function ModelsThen(status: nat, body: ErrorBody): Rejection {
    match body
    case Unparsable => JsonRejected
    case Parsed(e, m) => Thrown(OrElse(OrElse(e, m), "Failed to fetch models (" + NatToString(status) + ")"))
  }

  /** The error of a non-OK models response: the trailing `catch` also catches the error
      thrown by the `.then` before it, so the result is always the fallback text. */
  function ModelsFailure(status: nat, statusText: string, body: ErrorBody): (reason: string)
    ensures reason == "Failed to fetch models (" + NatToString(status) + " "
      + (if statusText == "" then "Server error" else statusText) + ")"
  {
    CatchAll(ModelsThen(status, body),
             "Failed to fetch models (" + NatToString(status) + " " + OrElse(statusText, "Server error") + ")")
  }

  /** The chat request's `.then` handler: the body's `error.message`, else its `message`,
      else `API Error: <status> <statusText>`, trimmed. */
  function ChatThen(status: nat, statusText: string, body: ErrorBody): Rejection {
    match body
    case Unparsable => JsonRejected
    case Parsed(e, m) =>
      Thrown(Trim(if e != "" then e else if m != "" then m else "API Error: " + NatToString(status) + " " + statusText))
  }

  /** The error of a non-OK chat response: again always the fallback text. */
  function ChatFailure(status: nat, statusText: string, body: ErrorBody): (reason: string)
    ensures reason == "API Error: " + NatToString(status) + " " + (if statusText == "" then "Server error" else statusText)
  {
    CatchAll(ChatThen(status, statusText, body),
             "API Error: " + NatToString(status) + " " + OrElse(statusText, "Server error"))
  }

  /** Digits, a space and a tail split apart uniquely. */
  lemma {:induction false} DigitsSpaceSplit(d1: string, t1: string, d2: string, t2: string)
    requires forall i :: 0 <= i < |d1| ==> IsDigit(d1[i])
    requires forall i :: 0 <= i < |d2| ==> IsDigit(d2[i])
    requires d1 + " " + t1 == d2 + " " + t2
    ensures d1 == d2 && t1 == t2
  {
    var s1, s2 := d1 + " " + t1, d2 + " " + t2;
    assert s1[|d1|] == ' ' && s2[|d2|] == ' ';
    assert forall i :: 0 <= i < |d1| ==> s1[i] == d1[i];
    assert forall i :: 0 <= i < |d2| ==> s2[i] == d2[i];
    assert |d1| == |d2|;
    assert d1 == s1[..|d1|] && d2 == s2[..|d2|];
    assert t1 == s1[|d1| + 1..] && t2 == s2[|d2| + 1..];
  }

  /** The chat error text gives back the status and the status text (with its
      `'Server error'` default): equal texts mean equal statuses. */
  lemma ChatFailureDeterminesStatus(s1: nat, t1: string, b1: ErrorBody, s2: nat, t2: string, b2: ErrorBody)
    requires ChatFailure(s1, t1, b1) == ChatFailure(s2, t2, b2)
    ensures s1 == s2
    ensures OrElse(t1, "Server error") == OrElse(t2, "Server error")
  {
    var p := "API Error: ";
    var u1, u2 := OrElse(t1, "Server error"), OrElse(t2, "Server error");
    var d1, d2 := NatToString(s1), NatToString(s2);
    Regroup(p, d1, u1);
    Regroup(p, d2, u2);
    DropPrefix(p, d1 + " " + u1, d2 + " " + u2);
    DigitsSpaceSplit(d1, u1, d2, u2);
    NatToStringInjective(s1, s2);
  }

  lemma Regroup(p: string, d: string, u: string)
    ensures p + d + " " + u == p + (d + " " + u)
  {
  }

  lemma DropPrefix(p: string, a: string, b: string)
    requires p + a == p + b
    ensures a == b
  {
    assert a == (p + a)[|p|..];
    assert b == (p + b)[|p|..];
  }

  // ---------------------------------------------------------------------------
  // The model list

  datatype ModelEntry = ModelEntry(id: string)

  /** `data.data`: an array of model records, or anything else. */
  datatype ModelsData = ModelArray(entries: seq<ModelEntry>) | NotAnArray

  /** `.map(model => ({ id: model.id }))`, keeping only the identifier text. */
  function ModelIds(entries: seq<ModelEntry>): (ids: seq<string>)
    ensures |ids| == |entries|
    ensures forall i :: 0 <= i < |entries| ==> ids[i] == entries[i].id
  {
    if entries == [] then [] else [entries[0].id] + ModelIds(entries[1..])
  }

  /** The list sent with `MODELS_LIST`: the ids in order, or nothing when `data.data` is
      not an array. */
  function ProjectModels(data: ModelsData): (models: seq<string>)
    ensures data.NotAnArray? ==> models == []
    ensures data.ModelArray? ==>
      && |models| == |data.entries|
      && forall i :: 0 <= i < |models| ==> models[i] == data.entries[i].id
  {
    match data
    case NotAnArray => []
    case ModelArray(entries) => ModelIds(entries)
  }

  /** How the models request ended. */
  datatype ModelsResponse =
    | ModelsFetchFailed(reason: string)                              // fetch rejected
    | ModelsNotOk(status: nat, statusText: string, body: ErrorBody)  // non-OK status
    | ModelsBodyFailed(reason: string)                             // OK, but response.json() rejected
    | ModelsOk(data: ModelsData)                                   // OK and parsed

  /** The one message the `GET_MODELS` branch sends. */
  function ModelsReply(response: ModelsResponse): (e: Event)
    ensures e.ModelsList? <==> response.ModelsOk?
    ensures e.ModelsList? || e.ModelsError?
    ensures response.ModelsNotOk? ==> e == ModelsError(ModelsFailure(response.status, response.statusText, response.body))
    ensures response.ModelsOk? ==> e.models == ProjectModels(response.data)
  {
    match response
    case ModelsFetchFailed(reason) => ModelsError(reason)
    case ModelsNotOk(status, statusText, body) => ModelsError(ModelsFailure(status, statusText, body))
    case ModelsBodyFailed(reason) => ModelsError(reason)
    case ModelsOk(data) => ModelsList(ProjectModels(data))
  }

  /** How a chat request ended before any stream was read. */
  datatype ChatOpenFailure =
    | ChatFetchFailed(reason: string)
    | ChatNotOk(status: nat, statusText: string, body: ErrorBody)

  /** The `CHAT_ERROR` sent when no stream could be opened. */
  function ChatOpenError(failure: ChatOpenFailure): (e: Event)
    ensures e.ChatError?
    ensures failure.ChatNotOk? ==> e.error == ChatFailure(failure.status, failure.statusText, failure.body)
  {
    match failure
    case ChatFetchFailed(reason) => ChatError(reason)
    case ChatNotOk(status, statusText, body) => ChatError(ChatFailure(status, statusText, body))
  }
}
