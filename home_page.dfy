/**
 * The Next.js chat page `Home` of src/pages/index.tsx: a message list, a
 * loading flag and the handle of the current stream. A send adds the user
 * message and an empty reply placeholder; the stream's callbacks rewrite
 * the list by the placeholder's id.
 */
module HomePage {
  import opened Wrappers
  import opened Text
  import opened ApiTypes
  import opened Runtime
  import opened SseLines
  import opened StreamApi
  import opened SessionManager

  const Apology: string := "抱歉，发生错误，请稍后再试。"

  /** `Message` (lines 13-18). */
  datatype Message = Message(id: string, content: string, isUser: bool, timestamp: string)

  /** Lines 79-85: `chunk` appended to the content of every message with this id; nothing else changes. */
  function AppendChunk(messages: seq<Message>, id: string, chunk: string): (r: seq<Message>)
    ensures |r| == |messages|
    ensures forall i | 0 <= i < |r| :: r[i].id == messages[i].id && r[i].isUser == messages[i].isUser && r[i].timestamp == messages[i].timestamp
    ensures forall i | 0 <= i < |r| :: r[i].content == if messages[i].id == id then messages[i].content + chunk else messages[i].content
  {
    seq(|messages|, i requires 0 <= i < |messages| =>
      if messages[i].id == id then messages[i].(content := messages[i].content + chunk) else messages[i])
  }

  /** Lines 93-99: the content of every message with this id replaced; nothing else changes. */
  function ReplaceContent(messages: seq<Message>, id: string, text: string): (r: seq<Message>)
    ensures |r| == |messages|
    ensures forall i | 0 <= i < |r| :: r[i].id == messages[i].id && r[i].isUser == messages[i].isUser && r[i].timestamp == messages[i].timestamp
    ensures forall i | 0 <= i < |r| :: r[i].content == if messages[i].id == id then text else messages[i].content
  {
    seq(|messages|, i requires 0 <= i < |messages| =>
      if messages[i].id == id then messages[i].(content := text) else messages[i])
  }

  /** The list after the chunks arrived, in order. */
  function AppendChunks(messages: seq<Message>, id: string, chunks: seq<string>): seq<Message> {
    if chunks == [] then messages else AppendChunk(AppendChunks(messages, id, Init(chunks)), id, Last(chunks))
  }

  lemma AppendChunkTwice(messages: seq<Message>, id: string, a: string, b: string)
    ensures AppendChunk(AppendChunk(messages, id, a), id, b) == AppendChunk(messages, id, a + b)
  {
    var m := AppendChunk(messages, id, a);
    var l := AppendChunk(m, id, b);
    var r := AppendChunk(messages, id, a + b);
    forall i | 0 <= i < |l| ensures l[i] == r[i] {
      var x := messages[i];
      if x.id == id {
        assert m[i].content == x.content + a;
        assert l[i].content == (x.content + a) + b;
        assert r[i].content == x.content + (a + b);
        ConcatAssoc(x.content, a, b);
      }
      assert l[i].content == r[i].content;
    }
    assert |l| == |r|;
  }

  /**
   * However the reply is cut into chunks, the list ends as if it had
   * arrived in one piece: the placeholder holds the concatenation of the
   * chunks, in order, and every other message is untouched.
   */
  lemma {:induction false} ChunksConcatenate(messages: seq<Message>, id: string, chunks: seq<string>)
    ensures AppendChunks(messages, id, chunks) == AppendChunk(messages, id, Concat(chunks))
  {
    if chunks == [] {
      var r := AppendChunk(messages, id, "");
      forall i | 0 <= i < |r| ensures r[i] == messages[i] {
        assert messages[i].content + "" == messages[i].content;
      }
    } else {
      ChunksConcatenate(messages, id, Init(chunks));
      AppendChunkTwice(messages, id, Concat(Init(chunks)), Last(chunks));
    }
  }

  class Home {
    var messages: seq<Message>
    var loading: bool
    /** `eventSourceRef` */
    var stream: MessageStream?

    /** A stream is held only while loading: the callbacks clear both together. */
    predicate Valid()
      reads this
    {
      stream != null ==> loading
    }

    constructor ()
      ensures Valid() && messages == [] && !loading && stream == null
    {
      messages := [];
      loading := false;
      stream := null;
    }

    /**
     * `handleSendMessage` (lines 38-114). Blank content or a send while
     * loading changes nothing. Otherwise a previous stream is closed and
     * dropped (while the page is valid none is held, since only loading
     * holds one), the user message and an empty placeholder are appended,
     * loading is set and a new stream is opened for the session id.
     * `userAt`, `aiAt` and `sessionAt` are the clock readings of lines 49,
     * 56 and `getSessionId`.
     */
    method HandleSendMessage(content: string, userAt: Instant, aiAt: Instant, b: Browser, sessionAt: nat, random: string)
      returns (sent: bool, aiMessageId: string, sessionId: string)
      requires b.hasWindow
      modifies this, b, stream, if stream != null then {stream.source} else {}
      ensures sent <==> !IsBlank(content) && !old(loading)
      ensures !sent ==> messages == old(messages) && loading == old(loading) && stream == old(stream) && b.storage == old(b.storage)
      ensures sent ==>
        && aiMessageId == "ai-" + Decimal(aiAt.millis)
        && messages == old(messages) + [Message("user-" + Decimal(userAt.millis), content, true, userAt.iso),
                                        Message(aiMessageId, "", false, aiAt.iso)]
        && Valid() && loading && stream != null && fresh(stream) && fresh(stream.source) && stream.calls == []
        && StoredSessionId(b) == Some(sessionId)
        && (old(StoredSessionId(b)).Some? ==> sessionId == old(StoredSessionId(b)).value)
      ensures sent && old(stream) != null ==> old(stream).source.readyState == CLOSED
    {
      sent, aiMessageId, sessionId := false, "", "";
      if IsBlank(content) || loading {
        return;
      }
      if stream != null {
        stream.Close(false);
        stream := null;
      }
      var userMessage := Message("user-" + Decimal(userAt.millis), content, true, userAt.iso);
      aiMessageId := "ai-" + Decimal(aiAt.millis);
      var initialAiMessage := Message(aiMessageId, "", false, aiAt.iso);
      messages := messages + [userMessage, initialAiMessage];
      loading := true;
      sessionId := GetSessionId(b, sessionAt, random);
      stream := new MessageStream();
      sent := true;
    }

    /** `onMessage` (lines 78-86): the chunk goes onto the placeholder only; the list keeps its length. */
    method OnChunk(aiMessageId: string, chunk: string)
      modifies this
      ensures messages == AppendChunk(old(messages), aiMessageId, chunk)
      ensures loading == old(loading) && stream == old(stream)
    {
      messages := AppendChunk(messages, aiMessageId, chunk);
    }

    /** `onError` (lines 91-102): the placeholder shows the apology; loading ends and the stream is dropped. */
    method OnStreamError(aiMessageId: string)
      modifies this
      ensures Valid()
      ensures messages == ReplaceContent(old(messages), aiMessageId, Apology)
      ensures !loading && stream == null
    {
      messages := ReplaceContent(messages, aiMessageId, Apology);
      loading := false;
      stream := null;
    }

    /** `onClose` (lines 106-110): loading ends and the stream is dropped; no message changes. */
    method OnStreamClose()
      modifies this
      ensures Valid()
      ensures messages == old(messages) && !loading && stream == null
    {
      loading := false;
      stream := null;
    }

    /** Runs one callback of the exchange whose placeholder is `aiMessageId`. */
    method Deliver(aiMessageId: string, callback: Callback)
      requires Valid()
      modifies this
      ensures Valid()
      ensures callback.OnMessage? ==> messages == AppendChunk(old(messages), aiMessageId, callback.chunk) && loading == old(loading) && stream == old(stream)
      ensures callback.OnError? ==> messages == ReplaceContent(old(messages), aiMessageId, Apology) && !loading && stream == null
      ensures callback.OnClose? ==> messages == old(messages) && !loading && stream == null
    {
      match callback {
        case OnMessage(chunk) => OnChunk(aiMessageId, chunk);
        case OnError => OnStreamError(aiMessageId);
        case OnClose => OnStreamClose();
      }
    }
  }
}
