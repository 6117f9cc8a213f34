/** Session helpers over `localStorage` (src/utils/auth.js): the token test,
    user-namespaced keys `user_<id>_<key>`, per-user data stored as JSON, and the
    logout clean-up that removes a user's namespace. */
module Auth {
  import opened JsText
  import opened Storage

  /** `isAuthenticated()`: a non-empty token is stored. */
  predicate IsAuthenticated(s: Store) {
    Truthy(Get(s, TokenKey))
  }

  /** A session counts as signed in exactly when a token is stored and it is
      not the empty string. */
  lemma IsAuthenticatedSpec(s: Store)
    ensures IsAuthenticated(s) <==> TokenKey in s && s[TokenKey] != ""
  {
    if TokenKey in s {
      assert Get(s, TokenKey) == Some(s[TokenKey]);
    }
  }

  /** `isGuestMode()`. auth.js as given does not define it; the model takes the
      guest flag to be set exactly when `guest_mode` holds the string "true",
      the only value any screen writes there. */
  predicate IsGuestMode(s: Store) {
    Get(s, GuestModeKey) == Some("true")
  }

  /** `getUserId()`. */
  function GetUserId(s: Store): Option<string> {
    Get(s, UserIdKey)
  }

  function UserPrefix(id: string): string {
    "user_" + id + "_"
  }

  /** `getUserKey(key)`: the key namespaced by the stored user id, or the key
      itself when no (non-empty) user id is stored. */
  function GetUserKey(s: Store, key: string): string {
    var id := GetUserId(s);
    if Truthy(id) then UserPrefix(id.value) + key else key
  }

  /** `JSON.stringify` on a string value, modelled as quoting. */
  function Stringify(v: string): string {
    "\"" + v + "\""
  }

  /** `JSON.parse` on the stored text; None stands for the exception it throws
      on text that is not a quoted value. */
  function ParseJson(d: string): Option<string> {
    if |d| >= 2 && d[0] == '"' && d[|d| - 1] == '"' then Some(d[1..|d| - 1]) else None
  }

  /** The outcome of `getUserData`: a value, or the exception `JSON.parse` raises. */
  datatype DataRead = Parsed(value: string) | ParseThrows

  /** `getUserData(key, defaultValue)`. */
  function GetUserData(s: Store, key: string, default: string): (r: DataRead)
    ensures !Truthy(Get(s, GetUserKey(s, key))) ==> r == Parsed(default)
    ensures r.ParseThrows? ==> GetUserKey(s, key) in s && ParseJson(s[GetUserKey(s, key)]).None?
  {
    var data := Get(s, GetUserKey(s, key));
    if !Truthy(data) then Parsed(default)
    else
      match ParseJson(data.value)
      case Some(v) => Parsed(v)
      case None => ParseThrows
  }

  /** The store after `setUserData(key, value)`. */
  function WithUserData(s: Store, key: string, value: string): Store {
    s[GetUserKey(s, key) := Stringify(value)]
  }

  /** The store after `removeUserData(key)`. */
  function WithoutUserData(s: Store, key: string): Store {
    s - {GetUserKey(s, key)}
  }

  /** The store after `clearUserData()`: every key that starts with the stored
      user's prefix `user_<id>_` is gone, and so is `userId`; nothing else changes. */
  function Cleared(s: Store): (r: Store)
    ensures UserIdKey !in r
    ensures forall k :: k in r <==>
      k in s && k != UserIdKey && !(Truthy(GetUserId(s)) && StartsWith(k, UserPrefix(GetUserId(s).value)))
    ensures forall k :: k in r ==> r[k] == s[k]
  {
    var id := GetUserId(s);
    var doomed := if Truthy(id) then set k | k in s && StartsWith(k, UserPrefix(id.value)) else {};
    s - doomed - {UserIdKey}
  }

  /** The store after a logout handler: `clearUserData()` and then the token
      removed. */
  function SignedOut(s: Store): (r: Store)
    ensures !IsAuthenticated(r) && TokenKey !in r && UserIdKey !in r
    ensures Get(r, GuestModeKey) == Get(s, GuestModeKey)
    ensures forall k :: k in r <==> k in Cleared(s) && k != TokenKey
    ensures forall k :: k in r ==> k in s && r[k] == s[k]
  {
    ClearKeepsSessionKeys(s);
    Cleared(s) - {TokenKey}
  }

  method SetUserData(ls: LocalStorage, key: string, value: string)
    modifies ls
    ensures ls.entries == WithUserData(old(ls.entries), key, value)
  {
    var userKey := GetUserKey(ls.entries, key);
    ls.SetItem(userKey, Stringify(value));
  }

  method RemoveUserData(ls: LocalStorage, key: string)
    modifies ls
    ensures ls.entries == WithoutUserData(old(ls.entries), key)
  {
    var userKey := GetUserKey(ls.entries, key);
    ls.RemoveItem(userKey);
  }

  /** `clearUserData()`: first collects the keys carrying the user's prefix by
      visiting every stored key, then removes them one by one, then removes
      `userId`. The browser's order of `localStorage.key(i)` is not specified, so
      the first loop visits the keys in an arbitrary order. */
  method ClearUserData(ls: LocalStorage)
    modifies ls
    ensures ls.entries == Cleared(old(ls.entries))
  {
    var userId := ls.GetItem(UserIdKey);
    if Truthy(userId) {
      var prefix := UserPrefix(userId.value);
      var keysToRemove: seq<string> := [];
      var unvisited := ls.entries.Keys;
      while unvisited != {}
        invariant unvisited <= ls.entries.Keys
        invariant ls.entries == old(ls.entries)
        invariant forall k :: k in keysToRemove ==> k in ls.entries && StartsWith(k, prefix)
        invariant forall k :: k in ls.entries && k !in unvisited && StartsWith(k, prefix) ==> k in keysToRemove
        decreases unvisited
      {
        var key :| key in unvisited;
        if StartsWith(key, prefix) {
          keysToRemove := keysToRemove + [key];
        }
        unvisited := unvisited - {key};
      }
      var i := 0;
      while i < |keysToRemove|
        invariant 0 <= i <= |keysToRemove|
        invariant ls.entries == old(ls.entries) - (set j | 0 <= j < i :: keysToRemove[j])
      {
        ls.RemoveItem(keysToRemove[i]);
        i := i + 1;
      }
      assert (set j | 0 <= j < |keysToRemove| :: keysToRemove[j])
          == (set k | k in old(ls.entries) && StartsWith(k, prefix));
    }
    ls.RemoveItem(UserIdKey);
  }

  /** Data written with `setUserData` reads back with `getUserData` under the
      same user, unless the key written is `userId` itself (possible only with
      no user stored), which would change the namespace. */
  lemma UserDataRoundTrip(s: Store, key: string, value: string, default: string)
    requires GetUserKey(s, key) != UserIdKey
    ensures GetUserData(WithUserData(s, key, value), key, default) == Parsed(value)
  {
    var s' := WithUserData(s, key, value);
    assert GetUserId(s') == GetUserId(s);
    var d := Stringify(value);
    assert d[1..|d| - 1] == value;
  }

  /** Under one user, distinct keys are stored under distinct names. */
  lemma UserKeyInjective(s: Store, k1: string, k2: string)
    requires GetUserKey(s, k1) == GetUserKey(s, k2)
    ensures k1 == k2
  {
    var id := GetUserId(s);
    if Truthy(id) {
      var p := UserPrefix(id.value);
      assert k1 == (p + k1)[|p|..] == (p + k2)[|p|..] == k2;
    }
  }

  /** The names of one key under two users coincide only if the users do. */
  lemma PrefixedKeysDiffer(a: string, b: string, key: string)
    ensures UserPrefix(a) + key == UserPrefix(b) + key ==> a == b
  {
    var x, y := UserPrefix(a) + key, UserPrefix(b) + key;
    if x == y {
      assert |a| == |b|;
      assert a == x[5..5 + |a|];
      assert b == y[5..5 + |b|];
    }
  }

  /** Data that user A writes is invisible to user B: after A's write and a
      switch of `userId` to B, B reads exactly what B read before. */
  lemma NamespacesIsolated(s: Store, a: string, b: string, key: string, value: string, default: string)
    requires a != "" && b != "" && a != b
    ensures GetUserData(WithUserData(s[UserIdKey := a], key, value)[UserIdKey := b], key, default)
         == GetUserData(s[UserIdKey := b], key, default)
  {
    PrefixedKeysDiffer(a, b, key);
    var written := WithUserData(s[UserIdKey := a], key, value);
    assert GetUserKey(s[UserIdKey := a], key) == UserPrefix(a) + key;
    assert GetUserKey(written[UserIdKey := b], key) == UserPrefix(b) + key;
    assert GetUserKey(s[UserIdKey := b], key) == UserPrefix(b) + key;
    assert UserPrefix(b) + key != UserIdKey by {
      assert (UserPrefix(b) + key)[4] == '_' != UserIdKey[4];
    }
  }

  /** Clearing keeps the session token and the guest flag whatever user is stored. */
  lemma ClearKeepsSessionKeys(s: Store)
    ensures Get(Cleared(s), TokenKey) == Get(s, TokenKey)
    ensures Get(Cleared(s), GuestModeKey) == Get(s, GuestModeKey)
  {
    var id := GetUserId(s);
    if Truthy(id) {
      assert TokenKey[0] != UserPrefix(id.value)[0];
      assert GuestModeKey[0] != UserPrefix(id.value)[0];
    }
  }

  /** With no user stored, clearing removes only `userId` (which is then absent anyway
      or holds the empty string). */
  lemma ClearWithoutUser(s: Store)
    requires !Truthy(GetUserId(s))
    ensures Cleared(s) == s - {UserIdKey}
  {
  }

  /** A second `clearUserData()` changes nothing: the first removed `userId`. */
  lemma ClearIdempotent(s: Store)
    ensures Cleared(Cleared(s)) == Cleared(s)
  {
    var r := Cleared(s);
    assert GetUserId(r) == None;
    assert Cleared(r) == r;
  }
}
