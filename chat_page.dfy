/**
 * The Vite chat page of src/pages/ChatPage.tsx: the input box and the
 * selected conversation, glued to the conversation directory and the
 * streaming hook, and the list it renders.
 */
module ChatPage {
  import opened Wrappers
  import opened Text
  import opened ApiTypes
  import opened ChatSessions
  import opened SseChat

  const TempUserId: string := "user-123"
  const NewSessionTitle: string := "新对话"
  const StreamingId: string := "streaming"

  class ChatPage {
    var inputMessage: string
    var selectedSessionId: string
    /** `initialLoadRef` */
    var initialLoad: bool
    const sessions: SessionDirectory
    const chat: SseChatHook

    predicate Valid()
      reads this, sessions, chat
    {
      sessions.Valid() && chat.Valid() && sessions.userId == TempUserId
    }

    constructor ()
      ensures Valid() && fresh(sessions) && fresh(chat)
      ensures inputMessage == "" && selectedSessionId == "" && !initialLoad
      ensures sessions.userId == TempUserId && sessions.sessions == [] && !sessions.loading
      ensures chat.messages == [] && chat.Quiet()
    {
      inputMessage := "";
      selectedSessionId := "";
      initialLoad := false;
      sessions := new SessionDirectory(TempUserId);
      chat := new SseChatHook();
    }

    /** The mount effect (lines 63-68): the first mount loads the first page of conversations, once. */
    method Mount() returns (request: Option<ListRequest>)
      requires Valid()
      modifies this, sessions
      ensures Valid() && initialLoad
      ensures old(initialLoad) ==> request == None && sessions.pending == old(sessions.pending)
      ensures !old(initialLoad) && !old(sessions.loading) ==> request == Some(ListRequest(TempUserId, None, DefaultPageSize))
      ensures !old(initialLoad) && old(sessions.loading) ==> request == None && sessions.pending == old(sessions.pending)
      ensures inputMessage == old(inputMessage) && selectedSessionId == old(selectedSessionId)
    {
      request := None;
      if !initialLoad {
        initialLoad := true;
        request := sessions.LoadSessions(None, DefaultPageSize, false);
      }
    }

    /**
     * `handleSendMessage` (lines 103-114): nothing happens for blank input,
     * without a selected conversation, or while streaming. Otherwise the
     * input is sent to the selected conversation; the input is not cleared
     * until the exchange settles.
     */
    method HandleSendMessage(now: Instant) returns (exchange: Option<FetchRead>)
      requires Valid()
      modifies chat, chat.eventSource, chat.fetchRead
      ensures Valid()
      ensures exchange.Some? <==> !IsBlank(inputMessage) && selectedSessionId != "" && !old(chat.isStreaming)
      ensures exchange.None? ==> unchanged(chat)
      ensures exchange.None? && old(chat.fetchRead) != null ==> unchanged(old(chat.fetchRead))
      ensures exchange.None? && old(chat.eventSource) != null ==> unchanged(old(chat.eventSource))
      ensures exchange.Some? ==>
        && chat.messages == old(chat.messages) + [UserMessage(inputMessage, selectedSessionId, now)]
        && chat.isStreaming && chat.fetchRead == exchange.value && exchange.value.conversationId == selectedSessionId
    {
      if IsBlank(inputMessage) || selectedSessionId == "" || chat.isStreaming {
        return None;
      }
      var loop := chat.SendMessage(inputMessage, selectedSessionId, now);
      exchange := Some(loop);
    }

    /** Line 110: once `sendMessage` resolves (it never rejects), the input is cleared. */
    method SendSettled()
      modifies this
      ensures inputMessage == "" && selectedSessionId == old(selectedSessionId) && initialLoad == old(initialLoad)
    {
      inputMessage := "";
    }

    /** `handleCreateSession` up to its `await` (lines 71-73): asks for a conversation titled "新对话". */
    method HandleCreateSession() returns (request: Option<CreateRequest>)
      requires Valid()
      modifies sessions
      ensures Valid()
      ensures !old(sessions.loading) ==> request == Some(CreateRequest(sessions.userId, Some(NewSessionTitle)))
      ensures old(sessions.loading) ==> request == None
    {
      request := sessions.CreateSession(Some(NewSessionTitle));
    }

    /**
     * The rest of `handleCreateSession` (lines 73-80), given how
     * `createSession` settled (undefined when its guard skipped it): a
     * truthy id is selected and its (empty) message list loaded; anything
     * else, including a rejection, leaves the page as it was.
     */
    method CreateSettled(outcome: Result<Option<string>, Thrown>)
      requires Valid()
      modifies this, chat
      ensures Valid()
      ensures outcome.Success? && outcome.value.Some? && outcome.value.value != "" ==>
        selectedSessionId == outcome.value.value && chat.conversationId == outcome.value.value && chat.messages == []
      ensures !(outcome.Success? && outcome.value.Some? && outcome.value.value != "") ==>
        selectedSessionId == old(selectedSessionId) && chat.messages == old(chat.messages)
      ensures chat.isStreaming == old(chat.isStreaming) && inputMessage == old(inputMessage)
    {
      if outcome.Success? && outcome.value.Some? && outcome.value.value != "" {
        var newSessionId := outcome.value.value;
        selectedSessionId := newSessionId;
        chat.LoadMessages(newSessionId);
      }
    }

    /** `handleSelectSession` (lines 84-87): selects the conversation and resets the message list. */
    method HandleSelectSession(sessionId: string)
      requires Valid()
      modifies this, chat
      ensures Valid()
      ensures selectedSessionId == sessionId && chat.conversationId == sessionId && chat.messages == []
      ensures chat.isStreaming == old(chat.isStreaming) && inputMessage == old(inputMessage)
    {
      selectedSessionId := sessionId;
      chat.LoadMessages(sessionId);
    }

    /** `handleDeleteSession` up to its `await` (lines 90-93). */
    method HandleDeleteSession(sessionId: string) returns (request: Option<DeleteRequest>)
      requires Valid()
      modifies sessions
      ensures Valid()
      ensures !old(sessions.loading) ==> request == Some(DeleteRequest(sessions.userId, sessionId, true))
      ensures old(sessions.loading) ==> request == None
    {
      request := sessions.DeleteSession(sessionId, true);
    }

    /**
     * The rest of `handleDeleteSession` (lines 93-99): once `deleteSession`
     * resolves, even as a no-op of the guard, the selection is cleared if it
     * was the deleted conversation, and nothing replaces it; a rejection
     * leaves it.
     */
    method DeleteSettled(sessionId: string, outcome: Result<(), Thrown>)
      modifies this
      ensures outcome.Success? && old(selectedSessionId) == sessionId ==> selectedSessionId == ""
      ensures !(outcome.Success? && old(selectedSessionId) == sessionId) ==> selectedSessionId == old(selectedSessionId)
      ensures inputMessage == old(inputMessage) && initialLoad == old(initialLoad)
    {
      if outcome.Success? && selectedSessionId == sessionId {
        selectedSessionId := "";
      }
    }

    /**
     * `renderMessages` (lines 125-146): the messages, then one "streaming"
     * assistant entry with the partial reply exactly while streaming with a
     * non-empty partial reply.
     */
    function RenderMessages(nowIso: string): (r: seq<ChatMessage>)
      reads this, chat
      ensures |r| == |chat.messages| || |r| == |chat.messages| + 1
      ensures |r| == |chat.messages| + 1 <==> chat.isStreaming && chat.currentMessage != ""
      ensures r[..|chat.messages|] == chat.messages
      ensures |r| > |chat.messages| ==>
        r[|r| - 1] == ChatMessage(StreamingId, Assistant, chat.currentMessage, nowIso, selectedSessionId)
    {
      var allMessages := chat.messages;
      if chat.isStreaming && chat.currentMessage != "" then
        allMessages + [ChatMessage(StreamingId, Assistant, chat.currentMessage, nowIso, selectedSessionId)]
      else allMessages
    }
  }
}
