/**
 * src/utils/user.ts: the user id kept in `localStorage` under `app_user_id`,
 * with a fixed default that `getUserId` stores on a miss.
 */
module UserIdentity {
  import opened Runtime

  const DefaultUserId: string := "test-user-001"
  const UserKey: string := "app_user_id"

  /** The id `getUserId` returns in this browser state: a stored non-empty id, else the default. */
  function ResolvedUserId(b: Browser): (r: string)
    reads b
    ensures r != ""
    ensures b.hasWindow && UserKey in b.storage && b.storage[UserKey] != "" ==> r == b.storage[UserKey]
    ensures !(b.hasWindow && UserKey in b.storage && b.storage[UserKey] != "") ==> r == DefaultUserId
  {
    if b.hasWindow && UserKey in b.storage && b.storage[UserKey] != "" then b.storage[UserKey] else DefaultUserId
  }

  /**
   * `getUserId` (lines 14-26): returns the resolved id; with a window and
   * no usable stored id it stores the default, so the answer is stable.
   */
  method GetUserId(b: Browser) returns (id: string)
    modifies b
    ensures id == old(ResolvedUserId(b)) && ResolvedUserId(b) == id
    ensures b.storage ==
      if b.hasWindow && !(UserKey in old(b.storage) && old(b.storage)[UserKey] != "")
      then old(b.storage)[UserKey := DefaultUserId] else old(b.storage)
    ensures b.darkClass == old(b.darkClass)
  {
    if b.hasWindow {
      if UserKey in b.storage && b.storage[UserKey] != "" {
        return b.storage[UserKey];
      }
      b.storage := b.storage[UserKey := DefaultUserId];
      return DefaultUserId;
    }
    return DefaultUserId;
  }

  /** `setUserId` (lines 32-36): with a window, a non-empty id is what `getUserId` returns next. */
  method SetUserId(b: Browser, userId: string)
    modifies b
    ensures b.storage == if b.hasWindow then old(b.storage)[UserKey := userId] else old(b.storage)
    ensures b.darkClass == old(b.darkClass)
    ensures b.hasWindow && userId != "" ==> ResolvedUserId(b) == userId
    ensures userId == "" ==> ResolvedUserId(b) == DefaultUserId
  {
    if b.hasWindow {
      b.storage := b.storage[UserKey := userId];
    }
  }

  /** `clearUserId` (lines 41-45): `getUserId` falls back to the default (and stores it again). */
  method ClearUserId(b: Browser)
    modifies b
    ensures b.storage == if b.hasWindow then old(b.storage) - {UserKey} else old(b.storage)
    ensures b.darkClass == old(b.darkClass)
    ensures ResolvedUserId(b) == DefaultUserId
  {
    if b.hasWindow {
      b.storage := b.storage - {UserKey};
    }
  }
}
