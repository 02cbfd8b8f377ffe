/**
 * The browser pieces the client drives, reduced to the state it reads and
 * writes: an `EventSource` connection with its `readyState`, and a window
 * with `localStorage`, the colour-scheme preference and the root element's
 * `dark` class.
 */
module Runtime {

  /** `EventSource.readyState`: CONNECTING = 0, OPEN = 1, CLOSED = 2 (HTML Living Standard, section 9.2.2). */
  type ReadyState = s: nat | s <= 2

  const CONNECTING: ReadyState := 0
  const OPEN: ReadyState := 1
  const CLOSED: ReadyState := 2

  class EventSource {
    var readyState: ReadyState

    /** A new connection starts in CONNECTING. */
    constructor ()
      ensures readyState == CONNECTING
    {
      readyState := CONNECTING;
    }

    /** `close()`: the connection is CLOSED for good. */
    method Close()
      modifies this
      ensures readyState == CLOSED
    {
      readyState := CLOSED;
    }

    /**
     * The user agent moves a connection that is not closed: OPEN when the
     * response arrives, CONNECTING while it reconnects, CLOSED when it fails
     * the connection. It does this before it fires the matching event.
     */
    method Announce(s: ReadyState)
      requires readyState != CLOSED
      modifies this
      ensures readyState == s
    {
      readyState := s;
    }
  }

  class Browser {
    /** `typeof window !== 'undefined'` */
    const hasWindow: bool
    /** `window.matchMedia` exists and `(prefers-color-scheme: dark)` matches. */
    const prefersDark: bool
    /** `localStorage` */
    var storage: map<string, string>
    /** `document.documentElement.classList.contains('dark')` */
    var darkClass: bool

    constructor (hasWindow: bool, prefersDark: bool, storage: map<string, string>)
      ensures this.hasWindow == hasWindow && this.prefersDark == prefersDark
      ensures this.storage == storage && !darkClass
    {
      this.hasWindow := hasWindow;
      this.prefersDark := prefersDark;
      this.storage := storage;
      darkClass := false;
    }
  }
}
