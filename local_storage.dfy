/** The browser's `localStorage`, the one piece of state that every screen of the
    dashboard shares: a map from string keys to string values. */
module Storage {
  import opened JsText

  type Store = map<string, string>

  /** Keys with a fixed meaning across the screens. */
  const TokenKey := "token"
  const UserIdKey := "userId"
  const GuestModeKey := "guest_mode"

  /** `getItem(key)` on a store value; None stands for `null`. */
  function Get(s: Store, key: string): Option<string> {
    if key in s then Some(s[key]) else None
  }

  /** The storage object itself; screens change it in place. */
  class LocalStorage {
    var entries: Store

    constructor (initial: Store)
      ensures entries == initial
    {
      entries := initial;
    }

    function GetItem(key: string): Option<string>
      reads this
    {
      Get(entries, key)
    }

    method SetItem(key: string, value: string)
      modifies this
      ensures entries == old(entries)[key := value]
    {
      entries := entries[key := value];
    }

    method RemoveItem(key: string)
      modifies this
      ensures entries == old(entries) - {key}
    {
      entries := entries - {key};
    }
  }
}
