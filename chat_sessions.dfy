/**
 * The conversation directory of src/features/chat/hooks/useChatSessions.ts.
 * Every asynchronous operation is split at its `await`: the call either is
 * rejected by the `loadingRef` guard or raises the guard and returns the
 * request it sends; the matching `...Settled` method applies the backend's
 * answer and lowers the guard, as the `finally` blocks do.
 */
module ChatSessions {
  import opened Wrappers
  import opened Text
  import opened ApiTypes
  import opened ChatService

  const DefaultPageSize: int := 20
  const LoadFailed: string := "加载会话列表失败"
  const CreateFailed: string := "创建会话失败"
  const DeleteFailed: string := "删除会话失败"
  const BatchDeleteFailed: string := "批量删除会话失败"

  /** The `ListSessionsRequest` of a load. */
  datatype ListRequest = ListRequest(userId: string, lastConversationId: Option<string>, pageSize: int)

  /** The `CreateSessionRequest` of a create. */
  datatype CreateRequest = CreateRequest(userId: string, title: Option<string>)

  /** The `DeleteSessionRequest` of a delete. */
  datatype DeleteRequest = DeleteRequest(userId: string, conversationId: string, clearChatMemory: bool)

  /** The operation awaiting the backend, with what its continuation captured. */
  datatype Pending =
    | Idle
    | Loading(pageSize: int, append: bool)
    | Creating
    | Deleting(conversationId: string)
    | BatchDeleting(conversationIds: seq<string>)

  /** Line 105: the sessions whose id is not `id`, in their order. */
  function WithoutSession(sessions: seq<ChatSession>, id: string): (r: seq<ChatSession>)
    ensures forall s :: s in r <==> s in sessions && s.conversationId != id
    ensures |r| <= |sessions|
  {
    if sessions == [] then []
    else (if sessions[0].conversationId != id then [sessions[0]] else []) + WithoutSession(sessions[1..], id)
  }

  /** Line 132: the sessions whose id is not among `ids`, in their order. */
  function WithoutSessions(sessions: seq<ChatSession>, ids: seq<string>): (r: seq<ChatSession>)
    ensures forall s :: s in r <==> s in sessions && s.conversationId !in ids
    ensures |r| <= |sessions|
  {
    if sessions == [] then []
    else (if sessions[0].conversationId !in ids then [sessions[0]] else []) + WithoutSessions(sessions[1..], ids)
  }

  /** Filtering keeps the order: the filter of a concatenation is the concatenation of the filters. */
  lemma {:induction false} WithoutSessionsAppend(a: seq<ChatSession>, b: seq<ChatSession>, ids: seq<string>)
    ensures WithoutSessions(a + b, ids) == WithoutSessions(a, ids) + WithoutSessions(b, ids)
  {
    if a == [] {
      assert a + b == b;
    } else {
      assert (a + b)[1..] == a[1..] + b;
      WithoutSessionsAppend(a[1..], b, ids);
    }
  }

  /** Deleting one id is the batch delete of that id alone. */
  lemma {:induction false} SingleIsBatch(sessions: seq<ChatSession>, id: string)
    ensures WithoutSession(sessions, id) == WithoutSessions(sessions, [id])
  {
    if sessions != [] {
      SingleIsBatch(sessions[1..], id);
    }
  }

  /** Batch deleting ids that no session has leaves the list as it was. */
  lemma {:induction false} BatchOfStrangers(sessions: seq<ChatSession>, ids: seq<string>)
    requires forall s :: s in sessions ==> s.conversationId !in ids
    ensures WithoutSessions(sessions, ids) == sessions
  {
    if sessions != [] {
      assert sessions[0] in sessions;
      forall s | s in sessions[1..] ensures s.conversationId !in ids {
        assert s in sessions;
      }
      BatchOfStrangers(sessions[1..], ids);
      assert sessions == [sessions[0]] + sessions[1..];
    }
  }

  class SessionDirectory {
    const userId: string
    var sessions: seq<ChatSession>
    /** The `loading` state and `loadingRef`, which every operation assigns together. */
    var loading: bool
    var error: Option<string>
    var hasMore: bool
    var pending: Pending

    /** The guard is up exactly while an operation awaits the backend. */
    predicate Valid()
      reads this
    {
      loading <==> !pending.Idle?
    }

    constructor (userId: string)
      ensures Valid() && this.userId == userId
      ensures sessions == [] && !loading && error == None && hasMore && pending == Idle
    {
      this.userId := userId;
      sessions := [];
      loading := false;
      error := None;
      hasMore := true;
      pending := Idle;
    }

    /**
     * `loadSessions` up to its request (lines 20-38): rejected while the
     * guard is up; otherwise raises it, clears the error and asks for a page.
     */
    method LoadSessions(lastConversationId: Option<string>, pageSize: int, append: bool) returns (request: Option<ListRequest>)
      requires Valid()
      modifies this
      ensures Valid()
      ensures old(loading) ==> request == None && unchanged(this)
      ensures !old(loading) ==>
        && request == Some(ListRequest(userId, lastConversationId, pageSize))
        && loading && pending == Loading(pageSize, append) && error == None
        && sessions == old(sessions) && hasMore == old(hasMore)
    {
      if loading {
        return None;
      }
      loading := true;
      error := None;
      pending := Loading(pageSize, append);
      request := Some(ListRequest(userId, lastConversationId, pageSize));
    }

    /**
     * The rest of `loadSessions` (lines 38-53): a page replaces the list or
     * is appended to it, and `hasMore` is whether the page was full; a
     * failure keeps the list and shows the error. The guard comes down.
     */
    method LoadSettled(outcome: Result<Envelope<seq<ChatSession>>, Thrown>)
      requires Valid() && pending.Loading?
      modifies this
      ensures Valid() && !loading && pending == Idle
      ensures outcome.Success? ==>
        var page := ListedSessions(outcome.value);
        && sessions == (if old(pending).append then old(sessions) + page else page)
        && hasMore == (|page| == old(pending).pageSize) && error == old(error)
      ensures outcome.Failure? ==>
        sessions == old(sessions) && hasMore == old(hasMore) && error == Some(ErrorText(outcome.error, LoadFailed))
    {
      match outcome {
        case Success(response) =>
          var page := ListedSessions(response);
          if pending.append {
            sessions := sessions + page;
          } else {
            sessions := page;
          }
          hasMore := |page| == pending.pageSize;
        case Failure(thrown) =>
          error := Some(ErrorText(thrown, LoadFailed));
      }
      loading := false;
      pending := Idle;
    }

    /** `createSession` up to its request (lines 59-72). */
    method CreateSession(title: Option<string>) returns (request: Option<CreateRequest>)
      requires Valid()
      modifies this
      ensures Valid()
      ensures old(loading) ==> request == None && unchanged(this)
      ensures !old(loading) ==>
        && request == Some(CreateRequest(userId, title))
        && loading && pending == Creating && error == None
        && sessions == old(sessions) && hasMore == old(hasMore)
    {
      if loading {
        return None;
      }
      loading := true;
      error := None;
      pending := Creating;
      request := Some(CreateRequest(userId, title));
    }

    /**
     * The rest of `createSession` (lines 72-84). The refresh at line 75 runs
     * while this operation's own guard is still up, so it is rejected and
     * the list stays as it was; the new id (or "") is returned. A failure
     * shows the error and is rethrown.
     */
    method CreateSettled(outcome: Result<Envelope<string>, Thrown>) returns (r: Result<string, Thrown>)
      requires Valid() && pending == Creating
      modifies this
      ensures Valid() && !loading && pending == Idle
      ensures sessions == old(sessions) && hasMore == old(hasMore)
      ensures outcome.Success? ==> r == Success(CreatedId(outcome.value)) && error == old(error)
      ensures outcome.Failure? ==> r == Failure(outcome.error) && error == Some(ErrorText(outcome.error, CreateFailed))
    {
      match outcome {
        case Success(response) =>
          var refresh := LoadSessions(None, DefaultPageSize, false);
          assert refresh == None;
          r := Success(CreatedId(response));
        case Failure(thrown) =>
          error := Some(ErrorText(thrown, CreateFailed));
          r := Failure(thrown);
      }
      loading := false;
      pending := Idle;
    }

    /** `deleteSession` up to its request (lines 90-102). */
    method DeleteSession(conversationId: string, clearChatMemory: bool) returns (request: Option<DeleteRequest>)
      requires Valid()
      modifies this
      ensures Valid()
      ensures old(loading) ==> request == None && unchanged(this)
      ensures !old(loading) ==>
        && request == Some(DeleteRequest(userId, conversationId, clearChatMemory))
        && loading && pending == Deleting(conversationId) && error == None
        && sessions == old(sessions) && hasMore == old(hasMore)
    {
      if loading {
        return None;
      }
      loading := true;
      error := None;
      pending := Deleting(conversationId);
      request := Some(DeleteRequest(userId, conversationId, clearChatMemory));
    }

    /**
     * The rest of `deleteSession` (lines 102-112): whatever the backend
     * answers, the session is removed locally; a failure keeps the list,
     * shows the error and is rethrown.
     */
    method DeleteSettled(outcome: Result<Envelope<bool>, Thrown>) returns (r: Result<(), Thrown>)
      requires Valid() && pending.Deleting?
      modifies this
      ensures Valid() && !loading && pending == Idle && hasMore == old(hasMore)
      ensures outcome.Success? ==> r == Success(()) && sessions == WithoutSession(old(sessions), old(pending).conversationId) && error == old(error)
      ensures outcome.Failure? ==> r == Failure(outcome.error) && sessions == old(sessions) && error == Some(ErrorText(outcome.error, DeleteFailed))
    {
      match outcome {
        case Success(_) =>
          sessions := WithoutSession(sessions, pending.conversationId);
          r := Success(());
        case Failure(thrown) =>
          error := Some(ErrorText(thrown, DeleteFailed));
          r := Failure(thrown);
      }
      loading := false;
      pending := Idle;
    }

    /**
     * `batchDeleteSessions` up to its request (lines 118-129). The ids are
     * passed as a second argument the service ignores; the payload has no
     * `conversationIds`, so the request carries no body.
     */
    method BatchDeleteSessions(conversationIds: seq<string>, clearChatMemory: bool) returns (request: Option<BatchDeletion>)
      requires Valid()
      modifies this
      ensures Valid()
      ensures old(loading) ==> request == None && unchanged(this)
      ensures !old(loading) ==>
        && request.Some? && request.value.body == None && request.value.clearChatMemory == clearChatMemory
        && loading && pending == BatchDeleting(conversationIds) && error == None
        && sessions == old(sessions) && hasMore == old(hasMore)
    {
      if loading {
        return None;
      }
      loading := true;
      error := None;
      pending := BatchDeleting(conversationIds);
      request := Some(BatchDeletionOf(BatchDeleteRequest(None, userId, clearChatMemory), conversationIds));
    }

    /**
     * The rest of `batchDeleteSessions` (lines 129-141): every session whose
     * id was asked for is removed locally and the backend's count returned;
     * a failure keeps the list, shows the error and is rethrown.
     */
    method BatchDeleteSettled(outcome: Result<Envelope<int>, Thrown>) returns (r: Result<int, Thrown>)
      requires Valid() && pending.BatchDeleting?
      modifies this
      ensures Valid() && !loading && pending == Idle && hasMore == old(hasMore)
      ensures outcome.Success? ==>
        && r == Success(DeletedCount(outcome.value))
        && sessions == WithoutSessions(old(sessions), old(pending).conversationIds) && error == old(error)
      ensures outcome.Failure? ==> r == Failure(outcome.error) && sessions == old(sessions) && error == Some(ErrorText(outcome.error, BatchDeleteFailed))
    {
      match outcome {
        case Success(response) =>
          sessions := WithoutSessions(sessions, pending.conversationIds);
          r := Success(DeletedCount(response));
        case Failure(thrown) =>
          error := Some(ErrorText(thrown, BatchDeleteFailed));
          r := Failure(thrown);
      }
      loading := false;
      pending := Idle;
    }

    /**
     * `loadMore` (lines 147-162): changes nothing itself; when the guard is
     * down and the list is not empty it schedules a timer with the last
     * session's id as the cursor.
     */
    method LoadMore() returns (cursor: Option<string>)
      ensures cursor.Some? <==> !loading && sessions != []
      ensures cursor.Some? ==> cursor.value == sessions[|sessions| - 1].conversationId
    {
      if loading || sessions == [] {
        return None;
      }
      cursor := Some(sessions[|sessions| - 1].conversationId);
    }

    /** The timer of `loadMore` (lines 154-158): loads the page after the cursor, appending, unless the guard is up. */
    method LoadMoreTimer(cursor: string) returns (request: Option<ListRequest>)
      requires Valid()
      modifies this
      ensures Valid()
      ensures old(loading) ==> request == None && unchanged(this)
      ensures !old(loading) ==>
        && request == Some(ListRequest(userId, Some(cursor), DefaultPageSize))
        && pending == Loading(DefaultPageSize, true) && loading && error == None
        && sessions == old(sessions) && hasMore == old(hasMore)
    {
      request := None;
      if !loading {
        request := LoadSessions(Some(cursor), DefaultPageSize, true);
      }
    }

    /** `refresh` (lines 167-171): a first-page load replacing the list, unless the guard is up. */
    method Refresh() returns (request: Option<ListRequest>)
      requires Valid()
      modifies this
      ensures Valid()
      ensures old(loading) ==> request == None && unchanged(this)
      ensures !old(loading) ==>
        && request == Some(ListRequest(userId, None, DefaultPageSize))
        && pending == Loading(DefaultPageSize, false) && loading && error == None
        && sessions == old(sessions) && hasMore == old(hasMore)
    {
      request := None;
      if !loading {
        request := LoadSessions(None, DefaultPageSize, false);
      }
    }
  }

  /** The ids of a list, in order. */
  function Ids(sessions: seq<ChatSession>): seq<string> {
    seq(|sessions|, i requires 0 <= i < |sessions| => sessions[i].conversationId)
  }

  predicate DistinctIds(all: seq<ChatSession>) {
    forall i, j :: 0 <= i < j < |all| ==> all[i].conversationId != all[j].conversationId
  }

  /**
   * A reference backend that lists `all` in a fixed order: the first page,
   * or the page after the session whose id is the cursor. The client's
   * source does not define the backend; this is the behaviour `PagingStep`
   * assumes of it, not one the real service is known to have.
   */
  function PageAfter(all: seq<ChatSession>, cursor: Option<string>, size: nat): (r: seq<ChatSession>)
    ensures |r| <= size
  {
    var from := match cursor
      case None => 0
      case Some(c) => IndexAfter(all, c);
    all[from..if from + size <= |all| then from + size else |all|]
  }

  /** The position just after the first session with id `c`, or the end when there is none. */
  function IndexAfter(all: seq<ChatSession>, c: string): (r: nat)
    ensures r <= |all|
    ensures r < |all| ==> r >= 1 && all[r - 1].conversationId == c
    ensures forall i :: 0 <= i < r - 1 ==> all[i].conversationId != c
  {
    if all == [] then 0
    else if all[0].conversationId == c then 1
    else
      var k := IndexAfter(all[1..], c);
      if k == |all[1..]| then |all| else k + 1
  }

  /**
   * Paging with `loadMore` through the reference backend `PageAfter`, which
   * is an assumption of this lemma and not a property of the real service:
   * when the list holds the first `m` sessions, appending the page after
   * the last one gives the first `m + 20` (or all of them), and `hasMore`
   * says only whether that page was full, so it stays true when exactly 20
   * were left.
   */
  lemma PagingStep(all: seq<ChatSession>, m: nat)
    requires DistinctIds(all) && 0 < m <= |all|
    ensures var page := PageAfter(all, Some(all[m - 1].conversationId), DefaultPageSize);
      && all[..m] + page == all[..if m + DefaultPageSize <= |all| then m + DefaultPageSize else |all|]
      && (|page| == DefaultPageSize <==> m + DefaultPageSize <= |all|)
  {
    IndexOfLast(all, m);
  }

  lemma {:induction false} IndexOfLast(all: seq<ChatSession>, m: nat)
    requires DistinctIds(all) && 0 < m <= |all|
    ensures IndexAfter(all, all[m - 1].conversationId) == m
  {
    var c := all[m - 1].conversationId;
    if all[0].conversationId != c {
      assert m > 1;
      forall i, j | 0 <= i < j < |all[1..]| ensures all[1..][i].conversationId != all[1..][j].conversationId {
        assert all[1..][i] == all[i + 1] && all[1..][j] == all[j + 1];
      }
      assert all[1..][m - 2] == all[m - 1];
      IndexOfLast(all[1..], m - 1);
    }
  }
}
