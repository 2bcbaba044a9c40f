/** The records that cross the popup/background message bus (`chrome.runtime.sendMessage`). */
module Wire {

  datatype Option<+T> = None | Some(value: T)

  /** The `sender` field of a chat message: `'You'`, `'AI'` or `'System'`. */
  datatype Sender = You | AI | System

  /** One entry of a session's message list. The source leaves `isStreaming` and
      `isError` undefined on most messages; undefined is falsy and is `false` here. */
  datatype Message = Message(id: string, sender: Sender, text: string, isStreaming: bool, isError: bool)

  /** Background to popup. `failed` is the `error: true` flag of an end message. */
  datatype Event =
    | ChatStreamStart(messageId: string)
    | ChatStreamChunk(messageId: string, chunk: string)
    | ChatStreamEnd(messageId: string, failed: bool)
    | ChatError(error: string)
    | ModelsList(models: seq<string>)
    | ModelsError(error: string)

  /** Popup to background. Each listed model is the `id` of one `{id}` record. */
  datatype Request =
    | GetModels
    | SendChatMessage(prompt: string, model: string, history: seq<Message>, systemPrompt: string)
}
