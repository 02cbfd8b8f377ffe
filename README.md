# Streaming chat client: a Dafny model

This project models the client-side core of a streaming AI chat front end
written in TypeScript and React. It covers two generations of the engine.

The Vite/MUI generation:

- `useSSEChat` sends a prompt and reads the `text/event-stream` reply. It
  keeps a carry-over buffer across chunks and accumulates `data:` payloads
  into a partial reply. At end of stream the reply becomes one assistant
  message. Its flags and refs form a state machine driven by send, stop,
  end of stream, errors and aborts. An `EventSource` transport is kept as a
  fallback.
- `useChatSessions` is the conversation directory. One guard flag rejects
  overlapping operations.
- `ChatService` builds the requests, substitutes defaults for missing data
  and maps history entries to messages.
- `ChatPage` glues these together and renders the list.

The Next.js generation:

- `sendMessageStream` wraps an `EventSource` and classifies its errors by
  `readyState`.
- `Home` appends chunks to a reply placeholder found by its id.

Small modules around them:

- The `localStorage` helpers for the session id, the user id and the theme.
- The REST envelope rule of `AuthService`.
- Two zustand auth stores.

Each source file is one module. Objects whose fields the source updates in
place are classes: the hook, the directory, the pages, the stores, an
`EventSource`, a fetch exchange and the browser's storage. Every
asynchronous operation is cut at its `await`. The first method runs up to
the request and returns it. A second method takes the backend's answer as
a parameter.

The network, the clock and `Math.random` are parameters. `fetch`,
`localStorage` and the DOM class list are a `Browser` object with a
storage map. `EventSource.readyState` follows section 9.2.2 of the WHATWG
HTML Living Standard: CONNECTING = 0, OPEN = 1, CLOSED = 2. The comment at
`src/services/api.ts:65` calls CLOSED 0; the code compares against the
constant, and the model follows the code.

The line parser is a simplified form of "Interpreting an event stream",
section 9.2.6 of the same standard. It does not strip the space after
`data:`, it does not treat `\r` as a line end and it dispatches no events
on blank lines. It also drops payloads that are only white space. The model
follows the code, not the standard.

The central results:

- The reply does not depend on where the body was cut into chunks
  (`SseLines.ChunkBoundaryIndependence`, `SseLines.FeedAllInvariant`).
- The read loop finalises exactly the reply of the whole body
  (`SseChat.SseChatHook.ReadLoop`).
- The refresh inside `createSession` is always swallowed by the guard
  (`ChatSessions.SessionDirectory.CreateSettled`).
- `hasMore` stays true when exactly one full page was left
  (`ChatSessions.PagingStep`).
- The history role rule accepts exactly the 24 four-letter spellings of
  "user" (`ChatService.UserRule`).

## Model

| member | source | states |
|---|---|---|
| Text.Split | src/features/chat/hooks/useSSEChat.ts:116 | `split('\n')` yields at least one piece, so `lines.pop()` always has a piece to take |
| Text.SplitPieces | src/features/chat/hooks/useSSEChat.ts:116 | no piece of a split contains a newline |
| Text.JoinSplit | src/features/chat/hooks/useSSEChat.ts:116 | joining the pieces with newlines gives back the text, so splitting loses nothing |
| Text.SplitJoin | src/features/chat/hooks/useSSEChat.ts:116 | splitting newline-free lines joined by newlines gives back the lines |
| Text.SplitAppend | src/features/chat/hooks/useSSEChat.ts:113-119 | splitting `x + y` equals the complete lines of `x` followed by the split of `x`'s last piece plus `y` |
| Text.Decimal | src/features/chat/hooks/useSSEChat.ts:65 | `String(n)` is a non-empty string of decimal digits |
| Text.DecimalRoundTrip | src/utils/sessionManager.ts:55-57 | the digits of `Date.now()` read back as the same number |
| SseLines.Payload | src/features/chat/hooks/useSSEChat.ts:122-127 | a line contributes only when it is `data:` followed by a non-blank payload, which it contributes with no space stripping; every such line contributes |
| SseLines.DataLine | src/features/chat/hooks/useSSEChat.ts:122-125 | the payload of `data:` plus non-blank text is that text, leading spaces included |
| SseLines.BlankContributesNothing | src/features/chat/hooks/useSSEChat.ts:122-127 | a blank line contributes nothing |
| SseLines.PayloadsAppend | src/features/chat/hooks/useSSEChat.ts:121-129 | the lines' contributions concatenate in arrival order |
| SseLines.FeedAllInvariant | src/features/chat/hooks/useSSEChat.ts:100-130 | after any chunks, the buffer is the text after the last newline of everything received, and the reply holds the contributions of every complete line before it, each once and in order |
| SseLines.FinishIsReply | src/features/chat/hooks/useSSEChat.ts:100-145 | chunked reading plus the end-of-stream leftover step yields the reply of the whole body read as one text |
| SseLines.ChunkBoundaryIndependence | src/features/chat/hooks/useSSEChat.ts:100-145 | two chunkings of the same body yield the same reply |
| SseLines.TwoDeltasMakeHello | src/features/chat/hooks/useSSEChat.ts:111-145 | the body `data:He\ndata:llo\n` yields the reply "Hello" |
| SseChat.FetchRead.constructor | src/features/chat/hooks/useSSEChat.ts:74-100 | a new exchange has an empty buffer, is awaiting and is not aborted |
| SseChat.FetchRead.Abort | src/features/chat/hooks/useSSEChat.ts:40 | aborting marks the exchange aborted and changes nothing else |
| SseChat.SseChatHook.constructor | src/features/chat/hooks/useSSEChat.ts:9-19 | the hook starts with no messages, no error and no connection |
| SseChat.SseChatHook.Cleanup | src/features/chat/hooks/useSSEChat.ts:25-49 | closes the held EventSource, aborts the held exchange, drops both and clears the flags and the partial reply; messages and error stay |
| SseChat.SseChatHook.StopStreaming | src/features/chat/hooks/useSSEChat.ts:294-297 | stopping leaves the hook quiet with its messages unchanged, so no reply is ever added; a second stop finds a quiet hook and leaves every field as it is |
| SseChat.SseChatHook.SendWithFetch | src/features/chat/hooks/useSSEChat.ts:54-75 | a send first cleans up the previous connection, then appends the user message (role user, content the prompt) and opens a new exchange for the conversation |
| SseChat.SseChatHook.SendMessage | src/features/chat/hooks/useSSEChat.ts:281-289 | a send is always a fetch exchange: the fetch path catches every failure itself, so the EventSource fallback never runs |
| SseChat.SseChatHook.AppendPayloads | src/features/chat/hooks/useSSEChat.ts:121-129 | the loop over lines adds exactly the lines' contributions to both the ref and the shown reply |
| SseChat.SseChatHook.TakeChunk | src/features/chat/hooks/useSSEChat.ts:111-130 | on a live exchange, a chunk leaves the buffer and the reply as the parser's step function says |
| SseChat.SseChatHook.EndOfStream | src/features/chat/hooks/useSSEChat.ts:132-163 | at end of stream the leftover is parsed; one assistant message with the untrimmed reply and the exchange's conversation id is appended iff the reply is not blank; streaming stops and the shown reply is cleared |
| SseChat.SseChatHook.OnRead | src/features/chat/hooks/useSSEChat.ts:103-165 | a read settling after streaming stopped exits without finalising; otherwise the chunk is parsed, and a done read finalises |
| SseChat.SseChatHook.ReadLoop | src/features/chat/hooks/useSSEChat.ts:100-165 | for any chunking of a body, the loop appends the whole body's reply as one assistant message iff it is not blank |
| SseChat.SseChatHook.OnFetchFailure | src/features/chat/hooks/useSSEChat.ts:170-179 | an aborted exchange's failure changes nothing; any other failure sets the error text and stops streaming, adding no message |
| SseChat.SseChatHook.SendWithEventSource | src/features/chat/hooks/useSSEChat.ts:185-212 | the same preparation as the fetch path, then a new CONNECTING source whose handlers close over the conversation id; if creating it throws, the error is shown and streaming stops |
| SseChat.SseChatHook.OnSourceMessage | src/features/chat/hooks/useSSEChat.ts:215-226 | data is appended unchanged, but only while streaming from the current source |
| SseChat.SseChatHook.OnSourceError | src/features/chat/hooks/useSSEChat.ts:229-263 | a CLOSED source with a non-blank reply while streaming finalises it, under the conversation id its handler captured when the source was opened; when not streaming the error is ignored; otherwise "连接中断，请重试" is shown and the reply discarded |
| SseChat.SseChatHook.OnSourceOpen | src/features/chat/hooks/useSSEChat.ts:266-268 | opening clears the error only |
| SseChat.SseChatHook.ClearMessages | src/features/chat/hooks/useSSEChat.ts:302-307 | empties the list and the reply, leaving the connection and the streaming flag |
| SseChat.SseChatHook.LoadMessages | src/features/chat/hooks/useSSEChat.ts:314-322 | switches conversation and empties the list without stopping an active stream |
| ChatService.TypePrefix | src/features/chat/services/chatService.ts:22 | the id prefix is "M" unless the type is a non-empty string; otherwise it is the upper case of the first character: lower-case ASCII and Latin-1 letters move up by 32, `ß` gives "SS", `ÿ`, `µ`, `ı` and `ſ` their upper-case letters, and any character with no upper-case form (such as the `U` of "USER") stays as it is |
| ChatService.MapEntry | src/features/chat/services/chatService.ts:20-34 | role user iff the type is a string spelling "user" in any case; content, timestamp and conversation id are copied; the id is `timestamp-prefix-random` |
| ChatService.UserRule | src/features/chat/services/chatService.ts:28 | a type upper-cases to "USER" iff it is one of the four-letter spellings of "user", with `ſ` for `s` allowed |
| ChatService.UserEntryPrefix | src/features/chat/services/chatService.ts:22-28 | a message mapped to role user has id prefix "U" |
| ChatService.HistoryMessages | src/features/chat/services/chatService.ts:121-125 | one message per entry, in order: message `i` is entry `i` mapped with the `i`-th random draw, so it has the entry's content, conversation and role rule and the id `timestamp-prefix-random`; none when data is not an array |
| ChatService.HistoryQuery | src/features/chat/services/chatService.ts:105-119 | the conversation id goes in the path; each optional parameter is in the query iff it is truthy, with its value |
| ChatService.CreatedId | src/features/chat/services/chatService.ts:43-47 | the data, or "" when it is missing |
| ChatService.ListedSessions | src/features/chat/services/chatService.ts:52-55 | the data, or no sessions when it is missing |
| ChatService.Deleted | src/features/chat/services/chatService.ts:60-66 | true iff the data is present and true |
| ChatService.DeletedCount | src/features/chat/services/chatService.ts:71-80 | the data, or 0 when it is missing |
| ChatService.DefaultsIgnoreCode | src/features/chat/services/chatService.ts:43-80 | none of the four results depends on the envelope's code |
| ChatService.BatchDeletionOf | src/features/chat/services/chatService.ts:71-78 | the request body is the payload's `conversationIds` field, whatever the caller passes besides |
| ChatSessions.WithoutSession | src/features/chat/hooks/useChatSessions.ts:105 | a session survives iff its id differs from the deleted one |
| ChatSessions.WithoutSessions | src/features/chat/hooks/useChatSessions.ts:132 | a session survives iff its id is not among the deleted ids |
| ChatSessions.WithoutSessionsAppend | src/features/chat/hooks/useChatSessions.ts:132 | filtering keeps the order of the survivors |
| ChatSessions.SingleIsBatch | src/features/chat/hooks/useChatSessions.ts:105 | deleting one id filters like a batch of that id alone |
| ChatSessions.BatchOfStrangers | src/features/chat/hooks/useChatSessions.ts:132 | deleting ids no session has leaves the list as it was |
| ChatSessions.SessionDirectory.constructor | src/features/chat/hooks/useChatSessions.ts:9-15 | empty list, guard down, no error, `hasMore` true |
| ChatSessions.SessionDirectory.LoadSessions | src/features/chat/hooks/useChatSessions.ts:20-38 | rejected without effect while the guard is up; otherwise raises it, clears the error and requests the page |
| ChatSessions.SessionDirectory.LoadSettled | src/features/chat/hooks/useChatSessions.ts:38-53 | a page replaces or extends the list and `hasMore` is whether it was full; a failure keeps the list and shows the error; the guard comes down |
| ChatSessions.SessionDirectory.CreateSession | src/features/chat/hooks/useChatSessions.ts:59-72 | rejected while the guard is up; otherwise raises it and requests the create |
| ChatSessions.SessionDirectory.CreateSettled | src/features/chat/hooks/useChatSessions.ts:72-84 | the refresh is rejected by the guard, so the list never changes; the new id is returned, or the failure rethrown with the error shown |
| ChatSessions.SessionDirectory.DeleteSession | src/features/chat/hooks/useChatSessions.ts:90-102 | rejected while the guard is up; otherwise raises it and requests the delete |
| ChatSessions.SessionDirectory.DeleteSettled | src/features/chat/hooks/useChatSessions.ts:102-112 | success removes exactly that id's sessions; failure keeps the list, shows the error and rethrows; the guard comes down |
| ChatSessions.SessionDirectory.BatchDeleteSessions | src/features/chat/hooks/useChatSessions.ts:118-129 | rejected while the guard is up; otherwise the request it sends carries no ids |
| ChatSessions.SessionDirectory.BatchDeleteSettled | src/features/chat/hooks/useChatSessions.ts:129-141 | success removes every listed id and returns the backend's count; failure keeps the list and rethrows |
| ChatSessions.SessionDirectory.LoadMore | src/features/chat/hooks/useChatSessions.ts:147-162 | schedules a load iff the guard is down and the list is not empty, with the last session's id as the cursor; changes nothing itself |
| ChatSessions.SessionDirectory.LoadMoreTimer | src/features/chat/hooks/useChatSessions.ts:154-158 | requests the 20 sessions after the cursor in append mode, unless the guard is up |
| ChatSessions.SessionDirectory.Refresh | src/features/chat/hooks/useChatSessions.ts:167-171 | requests the first page in replace mode, unless the guard is up |
| ChatSessions.PagingStep | src/features/chat/hooks/useChatSessions.ts:147-158 | against an assumed reference backend that pages a fixed list, loading more after the first m sessions gives the first m + 20; `hasMore` is true iff at least 20 were left |
| ChatPage.ChatPage.constructor | src/pages/ChatPage.tsx:24-50 | the page uses the directory of user "user-123" and a fresh hook |
| ChatPage.ChatPage.Mount | src/pages/ChatPage.tsx:63-68 | the first mount requests the first page once, unless the directory is already loading, when nothing is requested; later mounts request nothing |
| ChatPage.ChatPage.HandleSendMessage | src/pages/ChatPage.tsx:103-109 | sends iff the input is not blank, a conversation is selected and nothing streams; a rejected send leaves the hook and the connections it holds entirely unchanged |
| ChatPage.ChatPage.SendSettled | src/pages/ChatPage.tsx:109-110 | the input is cleared only when the send settles |
| ChatPage.ChatPage.HandleCreateSession | src/pages/ChatPage.tsx:71-73 | asks for a conversation titled "新对话" |
| ChatPage.ChatPage.CreateSettled | src/pages/ChatPage.tsx:73-80 | a truthy new id is selected and its messages reset; anything else changes nothing |
| ChatPage.ChatPage.HandleSelectSession | src/pages/ChatPage.tsx:84-87 | selects the conversation and resets the message list |
| ChatPage.ChatPage.HandleDeleteSession | src/pages/ChatPage.tsx:90-93 | asks to delete the conversation, clearing its memory |
| ChatPage.ChatPage.DeleteSettled | src/pages/ChatPage.tsx:93-99 | a resolved delete, even one the guard skipped, clears the selection iff it was the deleted id; no replacement is chosen |
| ChatPage.ChatPage.RenderMessages | src/pages/ChatPage.tsx:125-137 | the messages, plus one final "streaming" assistant entry holding the partial reply iff streaming with a non-empty partial reply |
| StreamApi.ReactToError | src/services/api.ts:61-93 | `onClose` is deferred iff the state is not OPEN; the connection is closed iff it is not CLOSED |
| StreamApi.MessageStream.constructor | src/services/api.ts:33-39 | a new connection is CONNECTING and no callback has run |
| StreamApi.MessageStream.OnMessageEvent | src/services/api.ts:45-48 | each event's data goes to `onMessage` once, unchanged |
| StreamApi.MessageStream.OnErrorEvent | src/services/api.ts:57-107 | the connection ends CLOSED; `onClose` is deferred per the state, or called at once when the handler throws; `onError` is never called |
| StreamApi.MessageStream.Close | src/services/api.ts:116-138 | closes and defers `onClose` only when not CLOSED, so a second close does nothing |
| HomePage.AppendChunk | src/pages/index.tsx:78-86 | the chunk goes onto the message with the placeholder's id only; length and other fields are unchanged |
| HomePage.ReplaceContent | src/pages/index.tsx:91-99 | only the placeholder's content is replaced |
| HomePage.AppendChunkTwice | src/pages/index.tsx:78-86 | two chunks in a row act as their concatenation |
| HomePage.ChunksConcatenate | src/pages/index.tsx:78-86 | after any chunks, the placeholder holds their in-order concatenation and nothing else changed |
| HomePage.Home.constructor | src/pages/index.tsx:25-32 | no messages, not loading, no stream |
| HomePage.Home.HandleSendMessage | src/pages/index.tsx:38-114 | blank content or a send while loading changes nothing; otherwise a previous stream is closed, exactly the user message and an empty placeholder are appended, loading is set and a new stream opens for the session id |
| HomePage.Home.OnChunk | src/pages/index.tsx:78-86 | the chunk is appended to the placeholder |
| HomePage.Home.OnStreamError | src/pages/index.tsx:91-102 | the placeholder shows the apology; loading ends and the stream is dropped |
| HomePage.Home.OnStreamClose | src/pages/index.tsx:106-110 | loading ends and the stream is dropped; no content changes |
| HomePage.Home.Deliver | src/pages/index.tsx:71-113 | each callback does its own update and keeps the rule that a stream is held only while loading |
| SessionManager.GetActiveConversationId | src/utils/sessionManager.ts:12-17 | the stored id, or null without a window or an entry |
| SessionManager.SetActiveConversationId | src/utils/sessionManager.ts:23-27 | with a window, getting after setting returns the id; without one nothing changes |
| SessionManager.ClearActiveConversationId | src/utils/sessionManager.ts:32-36 | getting after clearing returns null |
| SessionManager.GenerateSessionId | src/utils/sessionManager.ts:53-58 | the id ends with the random text |
| SessionManager.GenerateLocalId | src/utils/sessionManager.ts:42-47 | a local id is "local-" followed by a session id |
| SessionManager.SessionIdRoundTrip | src/utils/sessionManager.ts:53-58 | a session id reads back as its timestamp and random text |
| SessionManager.SessionIdsDiffer | src/utils/sessionManager.ts:53-58 | different timestamps or random texts give different ids |
| SessionManager.StoredSessionId | src/utils/sessionManager.ts:66-71 | a stored id counts only when it is non-empty |
| SessionManager.GetSessionId | src/utils/sessionManager.ts:64-77 | a stored non-empty id is returned unchanged; otherwise a new one is stored and returned, so the next call returns it too |
| SessionManager.ResetSessionId | src/utils/sessionManager.ts:83-89 | always stores and returns a fresh id, which `getSessionId` then returns |
| UserIdentity.ResolvedUserId | src/utils/user.ts:14-26 | a stored non-empty id, else "test-user-001"; never empty |
| UserIdentity.GetUserId | src/utils/user.ts:14-26 | returns the resolved id; on a miss with a window it stores the default, so the answer is stable; without a window nothing is stored |
| UserIdentity.SetUserId | src/utils/user.ts:32-36 | with a window, a non-empty id is what `getUserId` returns next |
| UserIdentity.ClearUserId | src/utils/user.ts:41-45 | `getUserId` then returns the default |
| ThemeManager.GetTheme | src/utils/themeManager.ts:15-34 | any non-empty stored value verbatim; otherwise "dark" iff a window prefers dark, else "light" |
| ThemeManager.SetTheme | src/utils/themeManager.ts:40-54 | stores the theme; the `dark` class is present iff the theme is "dark" |
| ThemeManager.Flip | src/utils/themeManager.ts:62 | "dark" iff the current theme is "light", else "light" |
| ThemeManager.FlipTwice | src/utils/themeManager.ts:60-65 | toggling a proper theme twice restores it |
| ThemeManager.ToggleTheme | src/utils/themeManager.ts:60-65 | returns and persists the flip of the current theme, which `getTheme` then returns |
| ThemeManager.InitTheme | src/utils/themeManager.ts:71-74 | persists and shows the theme resolved at that moment |
| AuthService.Login | src/features/auth/services/authService.ts:9-18 | the user iff the code is 200 and data is present; otherwise an error with the message or "Login failed" |
| AuthService.LoginNeedsData | src/features/auth/services/authService.ts:12-16 | code 200 without data is still a failure |
| AuthService.Register | src/features/auth/services/authService.ts:23-33 | succeeds iff the code is 200; otherwise an error with the message or "Registration failed" |
| AuthService.FailuresCarryMessage | src/features/auth/services/authService.ts:12-31 | every thrown error has a non-empty message |
| AuthStore.AuthStore.constructor | src/features/auth/stores/authStore.ts:20-23 | signed out, not loading, no error |
| AuthStore.AuthStore.Partialize | src/features/auth/stores/authStore.ts:60 | only the signed-in flag and the user are persisted |
| AuthStore.AuthStore.Start | src/features/auth/stores/authStore.ts:26 | loading with no error; the persisted part is unchanged |
| AuthStore.AuthStore.LoginSettled | src/features/auth/stores/authStore.ts:27-33 | success signs the user in and goes to /chat; failure shows the message or "Login failed", keeps the signed-in state and stays |
| AuthStore.AuthStore.RegisterSettled | src/features/auth/stores/authStore.ts:38-44 | success only stops loading and goes to /login; failure shows the message or "Registration failed"; nobody is signed in |
| AuthStore.AuthStore.Logout | src/features/auth/stores/authStore.ts:47-51 | resets all four fields and goes to /login |
| AuthStore.AuthStore.ClearError | src/features/auth/stores/authStore.ts:53-55 | changes only the error |
| AuthStore.AuthStore.LoginWith | src/features/auth/stores/authStore.ts:25-33 | run against the service's envelope, the store ends signed in iff it was already or the envelope has code 200 and data; on success it holds that user with no error and goes to /chat; otherwise the persisted part is unchanged and it shows the envelope's message, or "Login failed" when that is empty |
| TokenStore.TokenStore.constructor | src/stores/authStore.ts:21-25 | all fields null or false, which keeps signed-in iff a token is held |
| TokenStore.TokenStore.SetAuthDetails | src/stores/authStore.ts:26-34 | token and user set, signed in, not loading, no error |
| TokenStore.TokenStore.ClearAuthDetails | src/stores/authStore.ts:35-43 | all five fields reset |
| TokenStore.TokenStore.SetLoading | src/stores/authStore.ts:44 | changes only the loading flag |
| TokenStore.TokenStore.SetError | src/stores/authStore.ts:45 | sets the error and stops loading |
| TokenStore.TokenStore.SelectIsAuthenticated | src/stores/authStore.ts:56 | signed in iff a token is held |
| TokenStore.TokenStore.SelectCurrentUser | src/stores/authStore.ts:59 | the user field unchanged |
| TokenStore.TokenStore.SelectAuthToken | src/stores/authStore.ts:62 | the token field unchanged |
| TokenStore.TokenStore.Partialize | src/stores/authStore.ts:50 | token, user and signed-in flag, agreeing with the selectors and with the invariant |

## Left out

- HTTP, `fetch`, URL building and `encodeURIComponent` are not modelled: a request is a value, and a response is a parameter.
- `TextDecoder` is not modelled: chunks are already-decoded strings, so a multi-byte character split across chunks is not modelled.
- Strings are sequences of code points, not UTF-16 code units: `slice(5)` and `substring(0, 1)` on surrogate pairs are not modelled.
- Text.UpperChar: full Unicode case mapping is not modelled; letters outside Latin-1 other than `ı` and `ſ` map to themselves.
- React rendering, re-renders, stale closures and interleavings are not modelled: each callback or continuation is one method call, and a handler reads the current state.
- The `loading` state and `loadingRef` of the directory are one field, and so are `isStreaming` and `isStreamingRef` of the hook; the source always assigns each pair together.
- `errorTimeoutRef` is never set in the source, so the `clearTimeout` branch of `cleanup` does nothing and is not modelled.
- `reader.releaseLock()`, the unmount effect (which runs `cleanup`), scrolling, key handling and console logging are not modelled.
- SseChat.SseChatHook.OnRead: requires a live exchange that is not aborted, because every read of an aborted fetch rejects with an AbortError, which `OnFetchFailure` swallows.
- SseChat.SseChatHook.ReadLoop: covers a body that arrives with no stop in between; a stop aborts the exchange and is covered by `OnRead` and `OnFetchFailure`.
- StreamApi.MessageStream.OnErrorEvent: an exception in the handler is modelled only as raised before the handler does anything else.
- StreamApi.MessageStream.Close: an exception is modelled only as raised before the connection is touched.
- SessionManager.GetSessionId: requires a window; the source has no guard and throws without one, and its only caller is a browser event handler.
- SessionManager.ResetSessionId: requires a window; the source has no guard and throws without one, and no modelled page calls it.
- ChatSessions.PagingStep: the real backend is not part of this model; the lemma holds for the reference backend `PageAfter` only.
- The `Math.random` text and `Date.now()` are parameters, as are ISO timestamps; `Date` objects in the Next.js messages are ISO strings.
- `ChatService.createChatStream` is modelled only as the new `EventSource` the hook receives; its URL is not modelled.
- The zustand `persist` middleware (JSON storage, rehydration) is not modelled beyond the `partialize` projection.
- AuthStore.AuthStore.LoginSettled: a thrown `null` or `undefined`, for which `err.message` itself throws, is not modelled.
- `getChatHistory` has no caller; it is modelled as its query and its mapping only.
