/**
 * src/utils/sessionManager.ts: the active conversation id and the chat
 * session id kept in `localStorage`, and the two id generators. The clock
 * and `Math.random` are parameters: `now` is `Date.now()` and `random` is
 * the base-36 text `Math.random().toString(36).substring(2, 10)` produced.
 */
module SessionManager {
  import opened Wrappers
  import opened Text
  import opened Runtime

  const ActiveKey: string := "activeChatConversationId"
  const SessionKey: string := "chatSessionId"

  /** `getActiveConversationIdFromStorage` (lines 12-17): the stored id, or null without a window or entry. */
  function GetActiveConversationId(b: Browser): (r: Option<string>)
    reads b
    ensures !b.hasWindow ==> r == None
    ensures b.hasWindow ==> (r.Some? <==> ActiveKey in b.storage)
    ensures r.Some? ==> ActiveKey in b.storage && r.value == b.storage[ActiveKey]
  {
    if b.hasWindow && ActiveKey in b.storage then Some(b.storage[ActiveKey]) else None
  }

  /** `setActiveConversationIdInStorage` (lines 23-27): the getter then returns the id; nothing without a window. */
  method SetActiveConversationId(b: Browser, conversationId: string)
    modifies b
    ensures b.storage == if b.hasWindow then old(b.storage)[ActiveKey := conversationId] else old(b.storage)
    ensures b.darkClass == old(b.darkClass)
    ensures b.hasWindow ==> GetActiveConversationId(b) == Some(conversationId)
  {
    if b.hasWindow {
      b.storage := b.storage[ActiveKey := conversationId];
    }
  }

  /** `clearActiveConversationIdFromStorage` (lines 32-36): the getter then returns null. */
  method ClearActiveConversationId(b: Browser)
    modifies b
    ensures b.storage == if b.hasWindow then old(b.storage) - {ActiveKey} else old(b.storage)
    ensures b.darkClass == old(b.darkClass)
    ensures GetActiveConversationId(b) == None
  {
    if b.hasWindow {
      b.storage := b.storage - {ActiveKey};
    }
  }

  /** The two parts of a session id. */
  datatype SessionIdParts = SessionIdParts(millis: nat, random: string)

  /** The position of the first `c` in `s`, or `|s|` when there is none. */
  function IndexOf(s: string, c: char): (r: nat)
    ensures r <= |s|
    ensures r < |s| ==> s[r] == c
    ensures forall i | 0 <= i < r :: s[i] != c
  {
    if s == [] then 0 else if s[0] == c then 0 else 1 + IndexOf(s[1..], c)
  }

  lemma {:induction false} IndexOfAfterPrefix(p: string, c: char, s: string)
    requires forall i | 0 <= i < |p| :: p[i] != c
    ensures IndexOf(p + [c] + s, c) == |p|
  {
    if p != [] {
      assert (p + [c] + s)[1..] == p[1..] + [c] + s;
      IndexOfAfterPrefix(p[1..], c, s);
    }
  }

  /** Reads a `<timestamp>-<random>` id back into its parts. */
  function ParseSessionId(id: string): Option<SessionIdParts> {
    var k := IndexOf(id, '-');
    if k < |id| && (forall i | 0 <= i < k :: IsDigit(id[i])) then
      Some(SessionIdParts(ParseDecimal(id[..k]), id[k + 1..]))
    else None
  }

  /** `generateSessionId` (lines 53-58): `<timestamp>-<random>`. */
  function GenerateSessionId(now: nat, random: string): (r: string)
    ensures |r| > |random| && r[|r| - |random|..] == random
  {
    Decimal(now) + "-" + random
  }

  /** `generateLocalId` (lines 42-47): a session id behind the prefix `local-`. */
  function GenerateLocalId(now: nat, random: string): (r: string)
    ensures r == "local-" + GenerateSessionId(now, random)
  {
    "local-" + Decimal(now) + "-" + random
  }

  /** A session id determines the timestamp and the random text it was made from. */
  lemma SessionIdRoundTrip(now: nat, random: string)
    ensures ParseSessionId(GenerateSessionId(now, random)) == Some(SessionIdParts(now, random))
  {
    var d := Decimal(now);
    var id := GenerateSessionId(now, random);
    assert id == d + ['-'] + random;
    IndexOfAfterPrefix(d, '-', random);
    assert id[..|d|] == d;
    assert id[|d| + 1..] == random;
    DecimalRoundTrip(now);
  }

  /** Different timestamps or random texts give different session ids. */
  lemma SessionIdsDiffer(now1: nat, random1: string, now2: nat, random2: string)
    requires now1 != now2 || random1 != random2
    ensures GenerateSessionId(now1, random1) != GenerateSessionId(now2, random2)
  {
    SessionIdRoundTrip(now1, random1);
    SessionIdRoundTrip(now2, random2);
  }

  /** The chat session id `getSessionId` would return without generating one: a stored non-empty id. */
  function StoredSessionId(b: Browser): (r: Option<string>)
    reads b
    ensures r.Some? <==> SessionKey in b.storage && b.storage[SessionKey] != ""
    ensures r.Some? ==> r.value == b.storage[SessionKey]
  {
    if SessionKey in b.storage && b.storage[SessionKey] != "" then Some(b.storage[SessionKey]) else None
  }

  /**
   * `getSessionId` (lines 64-77): a stored non-empty id is returned and
   * nothing changes; otherwise (an empty string counts as absent) a new id
   * is generated, stored and returned, so the next call returns it too.
   */
  method GetSessionId(b: Browser, now: nat, random: string) returns (id: string)
    requires b.hasWindow
    modifies b
    ensures old(StoredSessionId(b)).Some? ==> id == old(StoredSessionId(b)).value && b.storage == old(b.storage)
    ensures old(StoredSessionId(b)).None? ==>
      id == GenerateSessionId(now, random) && b.storage == old(b.storage)[SessionKey := id]
    ensures StoredSessionId(b) == Some(id)
    ensures b.darkClass == old(b.darkClass)
  {
    if SessionKey in b.storage && b.storage[SessionKey] != "" {
      return b.storage[SessionKey];
    }
    id := GenerateSessionId(now, random);
    b.storage := b.storage[SessionKey := id];
  }

  /** `resetSessionId` (lines 83-89): always a fresh id, stored, so `getSessionId` returns it next. */
  method ResetSessionId(b: Browser, now: nat, random: string) returns (id: string)
    requires b.hasWindow
    modifies b
    ensures id == GenerateSessionId(now, random)
    ensures b.storage == old(b.storage)[SessionKey := id]
    ensures StoredSessionId(b) == Some(id)
    ensures b.darkClass == old(b.darkClass)
  {
    id := GenerateSessionId(now, random);
    b.storage := b.storage[SessionKey := id];
  }
}
