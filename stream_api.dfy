/**
 * `sendMessageStream` of src/services/api.ts: an EventSource whose events
 * are forwarded to three callbacks, and the `close()` handle it returns.
 * The callbacks are recorded, in order, as invocations made at once or
 * deferred with `setTimeout(…, 0)`.
 */
module StreamApi {
  import opened Runtime

  datatype Callback = OnMessage(chunk: string) | OnError | OnClose

  datatype Invocation = Now(callback: Callback) | Deferred(callback: Callback)

  /** No invocation is of `onError`. */
  predicate NeverErrors(calls: seq<Invocation>) {
    forall i | 0 <= i < |calls| :: !calls[i].callback.OnError?
  }

  /**
   * The `onerror` decision on the state it reads (lines 61-93): whether
   * `onClose` is deferred, and whether the connection is closed.
   */
  datatype ErrorReaction = ErrorReaction(defersClose: bool, closes: bool)

  function ReactToError(state: ReadyState): (r: ErrorReaction)
    ensures r.defersClose <==> state != OPEN
    ensures r.closes <==> state != CLOSED
  {
    if state == CLOSED then ErrorReaction(true, false)
    else if state == CONNECTING then ErrorReaction(true, true)
    else ErrorReaction(false, true)
  }

  class MessageStream {
    const source: EventSource
    /** The callbacks invoked or scheduled so far, in order. */
    var calls: seq<Invocation>

    /** `sendMessageStream` (lines 33-39): a new connection; nothing has been called yet. */
    constructor ()
      ensures fresh(source) && source.readyState == CONNECTING && calls == []
    {
      source := new EventSource();
      calls := [];
    }

    /** `onmessage` (lines 45-48): the data goes to `onMessage` unchanged, once. */
    method OnMessageEvent(data: string)
      modifies this
      ensures calls == old(calls) + [Now(OnMessage(data))]
      ensures NeverErrors(old(calls)) ==> NeverErrors(calls)
    {
      calls := calls + [Now(OnMessage(data))];
    }

    /**
     * `onerror` (lines 57-107). CLOSED defers `onClose` and returns;
     * CONNECTING defers `onClose`; OPEN calls nothing; every state but
     * CLOSED is then closed. When the handler throws (`fault`), the catch
     * closes the connection if needed and calls `onClose` at once.
     * `onError` is never called.
     */
    method OnErrorEvent(fault: bool)
      modifies this, source
      ensures source.readyState == CLOSED
      ensures fault ==> calls == old(calls) + [Now(OnClose)]
      ensures !fault ==>
        calls == old(calls) + (if ReactToError(old(source.readyState)).defersClose then [Deferred(OnClose)] else [])
      ensures NeverErrors(old(calls)) ==> NeverErrors(calls)
    {
      if fault {
        if source.readyState != CLOSED {
          source.Close();
        }
        calls := calls + [Now(OnClose)];
        return;
      }
      var currentState := source.readyState;
      if currentState == CLOSED {
        calls := calls + [Deferred(OnClose)];
        return;
      }
      if currentState == 0 {
        calls := calls + [Deferred(OnClose)];
      }
      if source.readyState != CLOSED {
        source.Close();
      }
    }

    /**
     * The returned `close()` (lines 116-138): closes and defers `onClose`
     * unless already CLOSED, so a second call does nothing. When it throws
     * (`fault`), the catch calls `onClose` at once.
     */
    method Close(fault: bool)
      modifies this, source
      ensures !fault ==> source.readyState == CLOSED
      ensures !fault && old(source.readyState) == CLOSED ==> calls == old(calls)
      ensures !fault && old(source.readyState) != CLOSED ==> calls == old(calls) + [Deferred(OnClose)]
      ensures fault ==> calls == old(calls) + [Now(OnClose)] && source.readyState == old(source.readyState)
      ensures NeverErrors(old(calls)) ==> NeverErrors(calls)
    {
      if fault {
        calls := calls + [Now(OnClose)];
        return;
      }
      if source.readyState != CLOSED {
        source.Close();
        calls := calls + [Deferred(OnClose)];
      }
    }
  }
}
