/**
 * `ChatService` of src/features/chat/services/chatService.ts: the requests
 * it builds, the defaults it substitutes for missing response data, and
 * the mapping of history entries to chat messages. The HTTP client is not
 * modelled: a request is described as a value and a response arrives as an
 * envelope.
 */
module ChatService {
  import opened Wrappers
  import opened Text
  import opened ApiTypes

  /** A loosely typed JSON field: absent (or null), a string, or a number. */
  datatype Value = Missing | Str(s: string) | Number(n: int)

  /** JavaScript truthiness of a field: a non-empty string or a non-zero number. */
  predicate Truthy(v: Value) {
    match v
    case Missing => false
    case Str(s) => s != ""
    case Number(n) => n != 0
  }

  /** One entry of the history response; `type` is not trusted to be a string. */
  datatype HistoryEntry = HistoryEntry(timestamp: string, kind: Value, content: string, conversationId: string)

  /** The spellings whose upper case is exactly "USER" (`ſ` upper-cases to `S`). */
  predicate IsUserSpelling(t: string) {
    |t| == 4 && (t[0] == 'u' || t[0] == 'U')
    && (t[1] == 's' || t[1] == 'S' || t[1] == '\U{017F}')
    && (t[2] == 'e' || t[2] == 'E') && (t[3] == 'r' || t[3] == 'R')
  }

  /**
   * Line 22: the upper-cased first character of a non-empty string type,
   * else "M". A lower-case ASCII or Latin-1 letter moves up by 32, `ß`
   * becomes "SS", `ÿ` and `µ` become `Ÿ` and `Μ`, `ı` and `ſ` become "I"
   * and "S", and a character with no upper-case form (upper-case letters,
   * digits, punctuation) stays as it is.
   */
  function TypePrefix(kind: Value): (r: string)
    ensures |r| >= 1
    ensures !(kind.Str? && kind.s != "") ==> r == "M"
    ensures kind.Str? && kind.s != "" && ('a' <= kind.s[0] <= 'z' || ('\U{00E0}' <= kind.s[0] <= '\U{00FE}' && kind.s[0] != '\U{00F7}')) ==>
      r == [(kind.s[0] as int - 32) as char]
    ensures kind.Str? && kind.s != "" && kind.s[0] == '\U{00DF}' ==> r == "SS"
    ensures kind.Str? && kind.s != "" && kind.s[0] == '\U{00FF}' ==> r == "\U{0178}"
    ensures kind.Str? && kind.s != "" && kind.s[0] == '\U{00B5}' ==> r == "\U{039C}"
    ensures kind.Str? && kind.s != "" && kind.s[0] == '\U{0131}' ==> r == "I"
    ensures kind.Str? && kind.s != "" && kind.s[0] == '\U{017F}' ==> r == "S"
    ensures (kind.Str? && kind.s != "" && !('a' <= kind.s[0] <= 'z') && !('\U{00DF}' <= kind.s[0] <= '\U{00FF}')
             && kind.s[0] != '\U{00B5}' && kind.s[0] != '\U{0131}' && kind.s[0] != '\U{017F}') ==> r == [kind.s[0]]
  {
    if kind.Str? && |kind.s| > 0 then UpperFirst(kind.s) else "M"
  }

  /**
   * `mapChatMessageVOToChatMessage` (lines 20-34), given the random suffix
   * `Math.random().toString(36).substring(2, 7)` drew. The role is user
   * exactly for the four-letter spellings of "user" in any case.
   */
  function MapEntry(vo: HistoryEntry, suffix: string): (r: ChatMessage)
    ensures r.role == User <==> vo.kind.Str? && IsUserSpelling(vo.kind.s)
    ensures r.content == vo.content && r.timestamp == vo.timestamp && r.conversationId == vo.conversationId
    ensures r.id == vo.timestamp + "-" + TypePrefix(vo.kind) + "-" + suffix
  {
    UserRule(if vo.kind.Str? then vo.kind.s else "");
    var role := if vo.kind.Str? && Upper(vo.kind.s) == "USER" then User else Assistant;
    ChatMessage(vo.timestamp + "-" + TypePrefix(vo.kind) + "-" + suffix, role, vo.content, vo.timestamp, vo.conversationId)
  }

  /** A user entry's id carries the prefix "U". */
  lemma UserEntryPrefix(vo: HistoryEntry, suffix: string)
    requires MapEntry(vo, suffix).role == User
    ensures TypePrefix(vo.kind) == "U"
  {
  }

  /** `c.toUpperCase()` is the single character `x`, for the letters of "USER". */
  predicate UpperIs(c: char, x: char) {
    match x
    case 'U' => c == 'u' || c == 'U'
    case 'S' => c == 's' || c == 'S' || c == '\U{017F}'
    case 'E' => c == 'e' || c == 'E'
    case 'R' => c == 'r' || c == 'R'
    case _ => false
  }

  lemma UpperCharIs(c: char, x: char)
    requires x == 'U' || x == 'S' || x == 'E' || x == 'R'
    ensures UpperChar(c) == [x] <==> UpperIs(c, x)
  {
  }

  /** When `Upper(t)` is a word that does not start "SS", the first character of `t` makes its first letter. */
  lemma {:induction false} UpperHead(t: string, w: string)
    requires Upper(t) == w && |w| > 0 && !(|w| >= 2 && w[0] == 'S' && w[1] == 'S')
    ensures |t| > 0 && UpperChar(t[0]) == [w[0]] && Upper(t[1..]) == w[1..]
  {
    if t != [] {
      var h := UpperChar(t[0]);
      assert w == h + Upper(t[1..]);
      assert |h| == 1;
      assert w[0] == h[0];
      assert w[1..] == Upper(t[1..]);
    }
  }

  /** Line 28: a string type upper-cases to "USER" exactly when it is a spelling of "user". */
  lemma {:induction false} UserRule(t: string)
    ensures Upper(t) == "USER" <==> IsUserSpelling(t)
  {
    if Upper(t) == "USER" {
      UpperHead(t, "USER");
      UpperCharIs(t[0], 'U');
      var t1 := t[1..];
      UpperHead(t1, "SER");
      UpperCharIs(t1[0], 'S');
      var t2 := t1[1..];
      UpperHead(t2, "ER");
      UpperCharIs(t2[0], 'E');
      var t3 := t2[1..];
      UpperHead(t3, "R");
      UpperCharIs(t3[0], 'R');
      assert Upper(t3[1..]) == "";
      assert t3[1..] == [];
      assert |t| == 4;
    }
    if IsUserSpelling(t) {
      var a := t[1..];
      var b := a[1..];
      var c := b[1..];
      assert c[1..] == [];
      UpperCharIs(t[0], 'U');
      UpperCharIs(a[0], 'S');
      UpperCharIs(b[0], 'E');
      UpperCharIs(c[0], 'R');
      assert Upper(c) == "R";
      assert Upper(b) == "ER";
      assert Upper(a) == "SER";
    }
  }

  /** `data` of the history response: an array of entries, or anything else. */
  datatype HistoryData = Entries(entries: seq<HistoryEntry>) | NotAnArray

  /**
   * Lines 121-125: one message per entry, in order, each mapped with the
   * `i`-th random draw; no messages when `data` is not an array.
   */
  function HistoryMessages(data: HistoryData, suffix: nat -> string): (r: seq<ChatMessage>)
    ensures data.NotAnArray? ==> r == []
    ensures data.Entries? ==> |r| == |data.entries|
    ensures data.Entries? ==> forall i :: 0 <= i < |r| ==> r[i] == MapEntry(data.entries[i], suffix(i))
    ensures data.Entries? ==> forall i :: 0 <= i < |r| ==>
      r[i].content == data.entries[i].content && r[i].conversationId == data.entries[i].conversationId
      && r[i].timestamp == data.entries[i].timestamp
      && (r[i].role == User <==> data.entries[i].kind.Str? && IsUserSpelling(data.entries[i].kind.s))
  {
    match data
    case NotAnArray => []
    case Entries(vos) =>
      var r := seq(|vos|, i requires 0 <= i < |vos| => MapEntry(vos[i], suffix(i)));
      assert forall i :: 0 <= i < |r| ==> r[i] == MapEntry(vos[i], suffix(i));
      r
  }

  /** The parameters of `getChatHistory`. */
  datatype HistoryRequest = HistoryRequest(conversationId: string, lastMessageTimeStamp: Value, pageSize: Value)

  const LastKey: string := "lastMessageTimeStamp"
  const SizeKey: string := "pageSize"

  /**
   * Lines 105-119: the request path carries the conversation id; the query
   * holds each of the two optional parameters exactly when it is truthy.
   */
  method HistoryQuery(params: HistoryRequest) returns (path: string, query: map<string, Value>)
    ensures path == "/session/history/" + params.conversationId
    ensures forall k :: k in query <==> (k == LastKey && Truthy(params.lastMessageTimeStamp)) || (k == SizeKey && Truthy(params.pageSize))
    ensures LastKey in query ==> query[LastKey] == params.lastMessageTimeStamp
    ensures SizeKey in query ==> query[SizeKey] == params.pageSize
  {
    query := map[];
    if Truthy(params.lastMessageTimeStamp) {
      query := query[LastKey := params.lastMessageTimeStamp];
    }
    if Truthy(params.pageSize) {
      query := query[SizeKey := params.pageSize];
    }
    path := "/session/history/" + params.conversationId;
  }

  /** `createSession` (lines 43-47): the new id, or "" when the envelope has no data. */
  function CreatedId(response: Envelope<string>): (r: string)
    ensures response.data.Some? ==> r == response.data.value
    ensures response.data.None? ==> r == ""
  {
    response.data.GetOr("")
  }

  /** `listSessions` (lines 52-55): the page, or no sessions when the envelope has no data. */
  function ListedSessions(response: Envelope<seq<ChatSession>>): (r: seq<ChatSession>)
    ensures response.data.Some? ==> r == response.data.value
    ensures response.data.None? ==> r == []
  {
    response.data.GetOr([])
  }

  /** `deleteSession` (lines 60-66): the backend's flag, or false when the envelope has no data. */
  function Deleted(response: Envelope<bool>): (r: bool)
    ensures r <==> response.data == Some(true)
  {
    response.data.GetOr(false)
  }

  /** `batchDeleteSessions` (lines 71-80): the backend's count, or 0 when the envelope has no data. */
  function DeletedCount(response: Envelope<int>): (r: int)
    ensures response.data.Some? ==> r == response.data.value
    ensures response.data.None? ==> r == 0
  {
    response.data.GetOr(0)
  }

  /** None of the session methods looks at `code`: a failure code with data still yields the data. */
  lemma DefaultsIgnoreCode(s: Envelope<string>, l: Envelope<seq<ChatSession>>, d: Envelope<bool>, n: Envelope<int>, code: int)
    ensures CreatedId(s.(code := code)) == CreatedId(s)
    ensures ListedSessions(l.(code := code)) == ListedSessions(l)
    ensures Deleted(d.(code := code)) == Deleted(d)
    ensures DeletedCount(n.(code := code)) == DeletedCount(n)
  {
  }

  /** The payload of `batchDeleteSessions`. */
  datatype BatchDeleteRequest = BatchDeleteRequest(conversationIds: Option<seq<string>>, userId: string, clearChatMemory: bool)

  /** The DELETE request `batchDeleteSessions` sends: its query and its body. */
  datatype BatchDeletion = BatchDeletion(path: string, clearChatMemory: bool, body: Option<seq<string>>)

  /** Lines 74-78: the body is the payload's `conversationIds` field, whatever else the caller passes. */
  function BatchDeletionOf(payload: BatchDeleteRequest, extra: seq<string>): (r: BatchDeletion)
    ensures r.body == payload.conversationIds && r.clearChatMemory == payload.clearChatMemory
    ensures r.path == "/session/batch-delete"
  {
    BatchDeletion("/session/batch-delete", payload.clearChatMemory, payload.conversationIds)
  }
}
