/**
 * The record shapes the chat client exchanges with its backend and its
 * views, and the values its `catch` blocks receive.
 */
module ApiTypes {
  import opened Wrappers
  import opened Text

  datatype Role = User | Assistant

  /** A message of the Vite client's conversation view. */
  datatype ChatMessage = ChatMessage(
    id: string,
    role: Role,
    content: string,
    timestamp: string,
    conversationId: string)

  /** A conversation of the directory. */
  datatype ChatSession = ChatSession(
    conversationId: string,
    title: string,
    createdAt: string,
    updatedAt: string,
    userId: string,
    lastMessage: Option<string>)

  /** The REST envelope `{code, message, data}`; `code == 200` means success. */
  datatype Envelope<+T> = Envelope(code: int, message: string, data: Option<T>)

  /** What a `catch` receives: an `Error` carrying its message, or any other thrown value. */
  datatype Thrown = ErrorObject(message: string) | OtherValue

  /** One reading of the clock: `Date.now()` and `new Date().toISOString()`. */
  datatype Instant = Instant(millis: nat, iso: string)

  /** `err instanceof Error ? err.message : fallback` */
  function ErrorText(t: Thrown, fallback: string): string {
    match t
    case ErrorObject(m) => m
    case OtherValue => fallback
  }

  /** `err.message || fallback`: an empty or missing message gives the fallback. */
  function MessageOr(t: Thrown, fallback: string): string {
    match t
    case ErrorObject(m) => if m != "" then m else fallback
    case OtherValue => fallback
  }

  /** The optimistic user message of a send: id `user-<Date.now()>`. */
  function UserMessage(prompt: string, conversationId: string, now: Instant): ChatMessage {
    ChatMessage("user-" + Decimal(now.millis), User, prompt, now.iso, conversationId)
  }

  /** The finalised reply of an exchange: id `assistant-<Date.now()>`. */
  function AssistantMessage(text: string, conversationId: string, now: Instant): ChatMessage {
    ChatMessage("assistant-" + Decimal(now.millis), Assistant, text, now.iso, conversationId)
  }
}
