/**
 * The streaming chat hook of src/features/chat/hooks/useSSEChat.ts: the
 * message list, the partial reply, the streaming flag and the refs that
 * shadow them, driven by send (over fetch or EventSource), each settled
 * read, stop, end of stream, errors and aborts. React state and the refs
 * are fields; each callback or continuation is one method call.
 */
module SseChat {
  import opened Wrappers
  import opened Text
  import opened ApiTypes
  import opened Runtime
  import opened SseLines

  const ConnectionLost: string := "连接中断，请重试"
  const SendFailed: string := "发送消息失败"
  const NoBody: string := "Response body is null"

  /** Why a fetch exchange that was not aborted failed. */
  datatype FetchFailure =
    | Rejected(thrown: Thrown)   // fetch or a read rejected with this value
    | HttpStatus(status: nat)    // `!response.ok`
    | BodyMissing                // `!response.body`

  /** The text the hook shows for a failed fetch exchange. */
  function FailureText(f: FetchFailure): string {
    match f
    case Rejected(t) => ErrorText(t, SendFailed)
    case HttpStatus(status) => "HTTP error! status: " + Decimal(status)
    case BodyMissing => NoBody
  }

  /**
   * One fetch exchange (lines 54-180): the conversation it was sent to, the
   * reader loop's carry-over buffer, whether the loop is still awaiting the
   * response or a read, and whether its AbortController has fired.
   */
  class FetchRead {
    const conversationId: string
    var buffer: string
    var running: bool
    var aborted: bool

    constructor (conversationId: string)
      ensures this.conversationId == conversationId
      ensures buffer == "" && running && !aborted
    {
      this.conversationId := conversationId;
      buffer := "";
      running := true;
      aborted := false;
    }

    /** `abortController.abort()` */
    method Abort()
      modifies this
      ensures aborted && buffer == old(buffer) && running == old(running)
    {
      aborted := true;
    }
  }

  /**
   * The handlers `sendMessageWithEventSource` attaches to a new source:
   * each closes over the conversation id that call was given.
   */
  datatype Listener = Listener(source: EventSource, conversationId: string)

  class SseChatHook {
    var messages: seq<ChatMessage>
    /** The partial reply shown to the view (`currentMessage` state). */
    var currentMessage: string
    /** `isStreaming` state and `isStreamingRef`, which the hook always assigns together. */
    var isStreaming: bool
    var error: Option<string>
    /** `eventSourceRef` */
    var eventSource: EventSource?
    /** `abortControllerRef`: the fetch exchange whose controller it holds. */
    var fetchRead: FetchRead?
    /** `currentConversationIdRef` */
    var conversationId: string
    /** `currentMessageRef`: the accumulated reply. */
    var currentText: string
    /** `streamEndedRef` */
    var streamEnded: bool

    /**
     * An ended stream is not streaming, and while streaming the view shows
     * exactly the accumulated reply.
     */
    predicate Valid()
      reads this
    {
      (streamEnded ==> !isStreaming) && (isStreaming ==> currentMessage == currentText)
    }

    /** No connection, nothing streaming, no partial reply. */
    predicate Quiet()
      reads this
    {
      !isStreaming && !streamEnded && currentMessage == "" && currentText == ""
      && eventSource == null && fetchRead == null
    }

    constructor ()
      ensures Valid() && Quiet()
      ensures messages == [] && error == None && conversationId == ""
    {
      messages := [];
      currentMessage := "";
      isStreaming := false;
      error := None;
      eventSource := null;
      fetchRead := null;
      conversationId := "";
      currentText := "";
      streamEnded := false;
    }

    /** `cleanup` (lines 25-49): close the EventSource, abort the fetch, reset the flags and the partial reply. */
    method Cleanup()
      modifies this, eventSource, fetchRead
      ensures Valid() && Quiet()
      ensures messages == old(messages) && error == old(error) && conversationId == old(conversationId)
      ensures old(eventSource) != null ==> old(eventSource).readyState == CLOSED
      ensures old(fetchRead) != null ==> old(fetchRead).aborted
      ensures old(fetchRead) != null ==> old(fetchRead).running == old(fetchRead.running)
      ensures old(fetchRead) != null ==> old(fetchRead).buffer == old(fetchRead.buffer)
    {
      if eventSource != null {
        eventSource.Close();
        eventSource := null;
      }
      if fetchRead != null {
        fetchRead.Abort();
        fetchRead := null;
      }
      isStreaming := false;
      streamEnded := false;
      currentMessage := "";
      currentText := "";
    }

    /** `stopStreaming` (lines 294-297): discards the partial reply without adding it; a quiet hook stays as it was. */
    method StopStreaming()
      requires Valid()
      modifies this, eventSource, fetchRead
      ensures Valid() && Quiet()
      ensures messages == old(messages) && error == old(error) && conversationId == old(conversationId)
      ensures old(eventSource) != null ==> old(eventSource).readyState == CLOSED
      ensures old(fetchRead) != null ==> old(fetchRead).aborted
      ensures old(fetchRead) != null ==> old(fetchRead).running == old(fetchRead.running)
    {
      isStreaming := false;
      Cleanup();
    }

    /**
     * `sendMessageWithFetch` up to the request (lines 54-75): clean up any
     * previous exchange, then append the user message before the request is
     * opened. Returns the new exchange, whose reader loop then awaits.
     */
    method SendWithFetch(prompt: string, cid: string, now: Instant) returns (loop: FetchRead)
      requires Valid()
      modifies this, eventSource, fetchRead
      ensures Valid()
      ensures fresh(loop) && loop.conversationId == cid && loop.buffer == "" && loop.running && !loop.aborted
      ensures fetchRead == loop && eventSource == null
      ensures isStreaming && !streamEnded && error == None
      ensures currentText == "" && currentMessage == "" && conversationId == cid
      ensures messages == old(messages) + [UserMessage(prompt, cid, now)]
      ensures old(eventSource) != null ==> old(eventSource).readyState == CLOSED
      ensures old(fetchRead) != null ==> old(fetchRead).aborted
      ensures old(fetchRead) != null ==> old(fetchRead).running == old(fetchRead.running)
    {
      Cleanup();
      error := None;
      isStreaming := true;
      streamEnded := false;
      conversationId := cid;
      currentText := "";
      messages := messages + [UserMessage(prompt, cid, now)];
      loop := new FetchRead(cid);
      fetchRead := loop;
    }

    /**
     * `sendMessage` (lines 281-289). `sendMessageWithFetch` catches every
     * failure itself, so it never rejects and the EventSource fallback is
     * never taken: a send is always a fetch exchange.
     */
    method SendMessage(prompt: string, cid: string, now: Instant) returns (loop: FetchRead)
      requires Valid()
      modifies this, eventSource, fetchRead
      ensures Valid()
      ensures fresh(loop) && loop.conversationId == cid && loop.running && !loop.aborted && loop.buffer == ""
      ensures fetchRead == loop && eventSource == null
      ensures isStreaming && !streamEnded && error == None && currentText == "" && conversationId == cid
      ensures messages == old(messages) + [UserMessage(prompt, cid, now)]
      ensures old(eventSource) != null ==> old(eventSource).readyState == CLOSED
      ensures old(fetchRead) != null ==> old(fetchRead).aborted
    {
      loop := SendWithFetch(prompt, cid, now);
    }

    /** Lines 121-129 and 136-144: every line's payload, in order, onto both the ref and the view. */
    method AppendPayloads(lines: seq<string>)
      requires Valid()
      modifies this
      ensures Valid()
      ensures currentText == old(currentText) + Payloads(lines)
      ensures currentMessage == old(currentMessage) + Payloads(lines)
      ensures messages == old(messages) && isStreaming == old(isStreaming) && error == old(error)
      ensures eventSource == old(eventSource) && fetchRead == old(fetchRead)
      ensures conversationId == old(conversationId) && streamEnded == old(streamEnded)
    {
      var i := 0;
      while i < |lines|
        invariant 0 <= i <= |lines|
        invariant currentText == old(currentText) + Payloads(lines[..i])
        invariant currentMessage == old(currentMessage) + Payloads(lines[..i])
        invariant messages == old(messages) && isStreaming == old(isStreaming) && error == old(error)
        invariant eventSource == old(eventSource) && fetchRead == old(fetchRead)
        invariant conversationId == old(conversationId) && streamEnded == old(streamEnded)
        invariant Valid()
      {
        var line := lines[i];
        assert Init(lines[..i + 1]) == lines[..i] && Last(lines[..i + 1]) == line;
        if StartsWith(line, Marker) {
          var data := line[|Marker|..];
          if !IsBlank(data) {
            currentText := currentText + data;
            currentMessage := currentMessage + data;
          }
        }
        i := i + 1;
      }
      assert lines[..i] == lines;
    }

    /** Lines 111-130: a decoded chunk joins the carry-over buffer; every complete line is handled, the last piece is kept. */
    method TakeChunk(loop: FetchRead, chunk: string)
      requires Valid() && loop.running && !loop.aborted
      modifies this, loop
      ensures Valid()
      ensures loop.buffer == Feed(old(loop.buffer), chunk).buffer
      ensures currentText == old(currentText) + Feed(old(loop.buffer), chunk).delta
      ensures currentMessage == old(currentMessage) + Feed(old(loop.buffer), chunk).delta
      ensures loop.running == old(loop.running) && loop.aborted == old(loop.aborted)
      ensures messages == old(messages) && isStreaming == old(isStreaming) && error == old(error)
      ensures eventSource == old(eventSource) && fetchRead == old(fetchRead)
      ensures conversationId == old(conversationId) && streamEnded == old(streamEnded)
    {
      var lines := Split(loop.buffer + chunk);
      loop.buffer := Last(lines);
      AppendPayloads(Init(lines));
    }

    /**
     * Lines 132-163: the leftover buffer is handled, the reply, if not
     * blank, is appended untrimmed as one assistant message of the
     * exchange's conversation, and streaming ends.
     */
    method EndOfStream(loop: FetchRead, now: Instant)
      requires Valid() && loop.running && !loop.aborted
      modifies this, loop
      ensures Valid()
      ensures currentText == old(currentText) + Leftover(old(loop.buffer))
      ensures messages == old(messages) +
        (if IsBlank(currentText) then [] else [AssistantMessage(currentText, loop.conversationId, now)])
      ensures currentMessage == "" && !isStreaming && streamEnded && !loop.running
      ensures loop.buffer == old(loop.buffer) && loop.aborted == old(loop.aborted)
      ensures error == old(error) && eventSource == old(eventSource) && fetchRead == old(fetchRead)
      ensures conversationId == old(conversationId)
    {
      if !IsBlank(loop.buffer) {
        AppendPayloads(Split(loop.buffer));
      }
      if !IsBlank(currentText) {
        messages := messages + [AssistantMessage(currentText, loop.conversationId, now)];
      }
      currentMessage := "";
      isStreaming := false;
      streamEnded := true;
      loop.running := false;
    }

    /**
     * One settled `reader.read()` of a live fetch exchange (lines 103-165).
     * A read that settles after streaming stopped leaves the loop without
     * finalising. Otherwise a chunk goes through the carry-over buffer, and
     * at end of stream the exchange is finalised.
     */
    method OnRead(loop: FetchRead, done: bool, value: Option<string>, now: Instant)
      requires Valid() && loop.running && !loop.aborted
      modifies this, loop
      ensures Valid()
      ensures error == old(error) && eventSource == old(eventSource) && fetchRead == old(fetchRead)
      ensures conversationId == old(conversationId) && loop.aborted == old(loop.aborted)
      ensures !old(isStreaming) ==> unchanged(this) && !loop.running
      ensures old(isStreaming) ==>
        var fed := if value.Some? then Feed(old(loop.buffer), value.value) else Fed(old(loop.buffer), "");
        var text := old(currentText) + fed.delta + (if done then Leftover(fed.buffer) else "");
        && loop.buffer == fed.buffer
        && currentText == text
        && (done ==> && messages == old(messages) + (if IsBlank(text) then [] else [AssistantMessage(text, loop.conversationId, now)])
                     && currentMessage == "" && !isStreaming && streamEnded && !loop.running)
        && (!done ==> messages == old(messages) && currentMessage == text && isStreaming && !streamEnded && loop.running)
    {
      if !isStreaming {
        loop.running := false;
        return;
      }
      if value.Some? {
        TakeChunk(loop, value.value);
      }
      if done {
        EndOfStream(loop, now);
      }
    }

    /**
     * The reader loop of a fresh exchange (lines 103-165) over a body that
     * arrives as `chunks` and then ends, with no stop in between: however
     * the body is cut into chunks, the exchange appends exactly the reply of
     * the whole body, if it is not blank.
     */
    method ReadLoop(loop: FetchRead, chunks: seq<string>, now: Instant)
      requires Valid() && isStreaming && currentText == ""
      requires loop.running && !loop.aborted && loop.buffer == ""
      modifies this, loop
      ensures Valid() && !isStreaming && streamEnded && !loop.running && currentMessage == ""
      ensures currentText == Reply(Concat(chunks))
      ensures messages == old(messages) +
        (if IsBlank(Reply(Concat(chunks))) then [] else [AssistantMessage(Reply(Concat(chunks)), loop.conversationId, now)])
      ensures error == old(error) && eventSource == old(eventSource) && fetchRead == old(fetchRead)
      ensures conversationId == old(conversationId)
    {
      var i := 0;
      while i < |chunks|
        invariant 0 <= i <= |chunks|
        invariant Valid() && isStreaming && loop.running && !loop.aborted
        invariant loop.buffer == FeedAll(Start, chunks[..i]).buffer
        invariant currentText == FeedAll(Start, chunks[..i]).reply
        invariant messages == old(messages) && error == old(error) && conversationId == old(conversationId)
        invariant eventSource == old(eventSource) && fetchRead == old(fetchRead)
      {
        assert Init(chunks[..i + 1]) == chunks[..i] && Last(chunks[..i + 1]) == chunks[i];
        TakeChunk(loop, chunks[i]);
        i := i + 1;
      }
      assert chunks[..i] == chunks;
      FinishIsReply(chunks);
      EndOfStream(loop, now);
    }

    /**
     * The `catch` of a fetch exchange (lines 170-179). On an aborted exchange
     * every pending step rejects with an AbortError, which is swallowed. Any
     * other failure sets the error and stops streaming; no reply is added.
     */
    method OnFetchFailure(loop: FetchRead, failure: FetchFailure)
      requires Valid() && loop.running
      modifies this, loop
      ensures Valid() && !loop.running && loop.aborted == old(loop.aborted) && loop.buffer == old(loop.buffer)
      ensures old(loop.aborted) ==> unchanged(this)
      ensures !old(loop.aborted) ==>
        && error == Some(FailureText(failure)) && !isStreaming
        && messages == old(messages) && currentText == old(currentText) && currentMessage == old(currentMessage)
        && streamEnded == old(streamEnded) && eventSource == old(eventSource) && fetchRead == old(fetchRead)
        && conversationId == old(conversationId)
    {
      loop.running := false;
      if loop.aborted {
        return;
      }
      error := Some(FailureText(failure));
      isStreaming := false;
    }

    /**
     * `sendMessageWithEventSource` (lines 185-212, 270-275): the same
     * preparation as the fetch path, then an EventSource; if creating it
     * throws, the error is shown and streaming stops.
     */
    method SendWithEventSource(prompt: string, cid: string, now: Instant, createFailure: Option<Thrown>)
      returns (listener: Option<Listener>)
      requires Valid()
      modifies this, eventSource, fetchRead
      ensures Valid()
      ensures messages == old(messages) + [UserMessage(prompt, cid, now)]
      ensures currentText == "" && currentMessage == "" && !streamEnded && fetchRead == null && conversationId == cid
      ensures createFailure.None? ==>
        && listener.Some? && fresh(listener.value.source) && listener.value.source.readyState == CONNECTING
        && listener.value.conversationId == cid && eventSource == listener.value.source && isStreaming && error == None
      ensures createFailure.Some? ==>
        listener.None? && eventSource == null && !isStreaming && error == Some(ErrorText(createFailure.value, SendFailed))
      ensures old(eventSource) != null ==> old(eventSource).readyState == CLOSED
      ensures old(fetchRead) != null ==> old(fetchRead).aborted
      ensures old(fetchRead) != null ==> old(fetchRead).running == old(fetchRead.running)
    {
      Cleanup();
      error := None;
      isStreaming := true;
      streamEnded := false;
      conversationId := cid;
      currentText := "";
      messages := messages + [UserMessage(prompt, cid, now)];
      if createFailure.Some? {
        error := Some(ErrorText(createFailure.value, SendFailed));
        isStreaming := false;
        listener := None;
      } else {
        var es := new EventSource();
        eventSource := es;
        listener := Some(Listener(es, cid));
      }
    }

    /** `onmessage` (lines 215-226): ignored unless streaming from the current source; the data is appended as is. */
    method OnSourceMessage(l: Listener, data: string)
      requires Valid()
      modifies this
      ensures Valid()
      ensures !(old(isStreaming) && old(eventSource) == l.source) ==> unchanged(this)
      ensures old(isStreaming) && old(eventSource) == l.source ==>
        && currentText == old(currentText) + data && currentMessage == old(currentMessage) + data
        && messages == old(messages) && isStreaming && error == old(error) && eventSource == l.source
        && fetchRead == old(fetchRead) && streamEnded == old(streamEnded) && conversationId == old(conversationId)
    {
      if !isStreaming || eventSource != l.source {
        return;
      }
      currentText := currentText + data;
      currentMessage := currentMessage + data;
    }

    /**
     * `onerror` (lines 229-263) of a source, with the conversation id its
     * handler closed over when the source was opened. A CLOSED source with a non-blank reply while streaming is a
     * normal end: the reply is appended. After the stream has ended the
     * error is ignored. Otherwise the connection is reported lost and the
     * partial reply is discarded.
     */
    method OnSourceError(l: Listener, now: Instant)
      requires Valid()
      modifies this, eventSource, fetchRead
      ensures Valid()
      ensures conversationId == old(conversationId)
      ensures old(l.source.readyState) == CLOSED && !IsBlank(old(currentText)) && old(isStreaming) ==>
        && messages == old(messages) + [AssistantMessage(old(currentText), l.conversationId, now)]
        && currentMessage == "" && !isStreaming && streamEnded && eventSource == null
        && currentText == old(currentText) && error == old(error) && fetchRead == old(fetchRead)
      ensures !old(isStreaming) ==> unchanged(this)
      ensures !(old(l.source.readyState) == CLOSED && !IsBlank(old(currentText))) && old(isStreaming) ==>
        && error == Some(ConnectionLost) && Quiet() && messages == old(messages)
    {
      if l.source.readyState == CLOSED {
        if !IsBlank(currentText) && isStreaming {
          messages := messages + [AssistantMessage(currentText, l.conversationId, now)];
          currentMessage := "";
          isStreaming := false;
          streamEnded := true;
          eventSource := null;
          return;
        }
      }
      if !isStreaming || streamEnded {
        return;
      }
      error := Some(ConnectionLost);
      isStreaming := false;
      Cleanup();
    }

    /** `onopen` (lines 266-268): clears the error. */
    method OnSourceOpen()
      requires Valid()
      modifies this
      ensures Valid() && error == None
      ensures messages == old(messages) && currentText == old(currentText) && currentMessage == old(currentMessage)
      ensures isStreaming == old(isStreaming) && streamEnded == old(streamEnded)
      ensures eventSource == old(eventSource) && fetchRead == old(fetchRead) && conversationId == old(conversationId)
    {
      error := None;
    }

    /** `clearMessages` (lines 302-307): empties the list and the partial reply; the connection is left alone. */
    method ClearMessages()
      requires Valid()
      modifies this
      ensures Valid()
      ensures messages == [] && currentMessage == "" && currentText == "" && !streamEnded
      ensures isStreaming == old(isStreaming) && error == old(error) && conversationId == old(conversationId)
      ensures eventSource == old(eventSource) && fetchRead == old(fetchRead)
    {
      messages := [];
      currentMessage := "";
      currentText := "";
      streamEnded := false;
    }

    /**
     * `loadMessages` (lines 314-322): switches the conversation and empties
     * the list, but does not stop an active stream, whose reply still lands
     * in the new list under its own conversation id.
     */
    method LoadMessages(cid: string)
      requires Valid()
      modifies this
      ensures Valid()
      ensures conversationId == cid && messages == [] && currentMessage == "" && currentText == "" && !streamEnded
      ensures isStreaming == old(isStreaming) && error == old(error)
      ensures eventSource == old(eventSource) && fetchRead == old(fetchRead)
    {
      conversationId := cid;
      messages := [];
      currentMessage := "";
      currentText := "";
      streamEnded := false;
    }
  }
}
