/** The route guard (src/components/ProtectedRoute.js): a component whose state
    `isAuthenticated` starts out unknown (`null`), is set once on mount from the
    stored token and guest flag, and decides between a loading placeholder, a
    redirect to the login page and rendering the protected screen. */
module ProtectedRoute {
  import opened JsText
  import opened Storage
  import opened Auth
  import opened Routing

  /** What the guard renders. */
  datatype View = Loading | Redirect(nav: Nav) | RenderChildren

  /** `checkAuth`'s verdict: a stored token or the guest flag. */
  predicate HasAccess(s: Store) {
    IsAuthenticated(s) || IsGuestMode(s)
  }

  /** The render decision for the tri-state `isAuthenticated`. */
  function Decide(state: Option<bool>): (v: View)
    ensures v.Loading? <==> state.None?
    ensures v.Redirect? <==> state == Some(false)
    ensures v.Redirect? ==> v.nav == Nav(Login(None), true)
    ensures v.RenderChildren? <==> state == Some(true)
  {
    match state
    case None => Loading
    case Some(false) => Redirect(Nav(Login(None), true))
    case Some(true) => RenderChildren
  }

  class Guard {
    var isAuthenticated: Option<bool>

    /** Mounting: the state starts as `null`. */
    constructor ()
      ensures isAuthenticated == None
    {
      isAuthenticated := None;
    }

    /** The mount effect `checkAuth()`: the only writer of the state, which it
        sets to a boolean, so the state never returns to `null`. */
    method CheckAuth(ls: LocalStorage)
      modifies this
      ensures isAuthenticated == Some(HasAccess(ls.entries))
    {
      var token := IsAuthenticated(ls.entries);
      var guest := IsGuestMode(ls.entries);
      isAuthenticated := Some(token || guest);
    }

    function Render(): View
      reads this
    {
      Decide(isAuthenticated)
    }
  }

  /** The view once the check has run: rendering iff a token or the guest flag
      is present, otherwise a replacing redirect to the login page; never the
      placeholder again. */
  lemma CheckedView(s: Store)
    ensures Decide(Some(HasAccess(s))) == RenderChildren <==> IsAuthenticated(s) || IsGuestMode(s)
    ensures Decide(Some(HasAccess(s))) != RenderChildren ==> Decide(Some(HasAccess(s))) == Redirect(Nav(Login(None), true))
    ensures !Decide(Some(HasAccess(s))).Loading?
  {
  }

  /** A stored token wins: the screen renders whatever the guest flag holds. */
  lemma TokenTakesPrecedence(s: Store, flag: Option<string>)
    requires IsAuthenticated(s)
    ensures Decide(Some(HasAccess(s))) == RenderChildren
    ensures flag.Some? ==> Decide(Some(HasAccess(s[GuestModeKey := flag.value]))) == RenderChildren
    ensures Decide(Some(HasAccess(s - {GuestModeKey}))) == RenderChildren
  {
    assert Get(s[GuestModeKey := flag.GetOr("")], TokenKey) == Get(s, TokenKey);
    assert Get(s - {GuestModeKey}, TokenKey) == Get(s, TokenKey);
  }
}
