/** Guest entry (src/components/GuestEntry.js): on mount it sets the guest flag
    and replaces the current page with the dashboard; it renders nothing. */
module GuestEntry {
  import opened JsText
  import opened Storage
  import opened Auth
  import opened Routing
  import ProtectedRoute

  /** The store after entering guest mode: only `guest_mode` is written. */
  function EnteredGuestMode(s: Store): Store {
    s[GuestModeKey := "true"]
  }

  /** The mount effect: write the flag, then navigate. */
  method EnterGuestMode(ls: LocalStorage) returns (nav: Nav)
    modifies ls
    ensures ls.entries == EnteredGuestMode(old(ls.entries))
    ensures nav == Nav(Dashboard, true)
  {
    ls.SetItem(GuestModeKey, "true");
    nav := Nav(Dashboard, true);
  }

  /** After guest entry the guard lets the visitor in, and the token and user
      id are exactly what they were. */
  lemma GuestEntryGrantsAccess(s: Store)
    ensures IsGuestMode(EnteredGuestMode(s))
    ensures ProtectedRoute.Decide(Some(ProtectedRoute.HasAccess(EnteredGuestMode(s)))) == ProtectedRoute.RenderChildren
    ensures Get(EnteredGuestMode(s), TokenKey) == Get(s, TokenKey)
    ensures Get(EnteredGuestMode(s), UserIdKey) == Get(s, UserIdKey)
    ensures forall k :: k != GuestModeKey ==> Get(EnteredGuestMode(s), k) == Get(s, k)
  {
  }
}
