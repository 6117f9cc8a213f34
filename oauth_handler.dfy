/** The OAuth callback screen (src/components/OAuthHandler.js): reads the query
    parameters the backend's redirect carries and, in order of precedence, goes
    back to login with the provider's error, forwards a pending token to the
    email-capture page, or stores the token and user id and routes on the
    category flags. Every navigation replaces the callback page. */
module OAuthHandler {
  import opened JsText
  import opened Storage
  import opened Routing

  /** The query parameters; None stands for an absent parameter. */
  datatype CallbackParams = CallbackParams(
    token: Option<string>,
    userId: Option<string>,
    shopCategory: Option<string>,
    categorySelected: Option<string>,
    error: Option<string>,
    pendingToken: Option<string>,
    provider: Option<string>,
    name: Option<string>)

  /** A category counts unless it is empty or the text "null" or "undefined". */
  predicate HasValidCategory(p: CallbackParams) {
    Truthy(p.shopCategory) && p.shopCategory.value != "null" && p.shopCategory.value != "undefined"
  }

  predicate HasCompletedCategory(p: CallbackParams) {
    p.categorySelected == Some("true")
  }

  /** A parameter is copied to the email-capture URL only when truthy. */
  function KeepIfTruthy(o: Option<string>): Option<string> {
    if Truthy(o) then o else None
  }

  /** Where the callback sends the visitor. */
  function CallbackTarget(p: CallbackParams): (nav: Nav)
    ensures nav.replace
    ensures Truthy(p.error) ==> nav.to == Login(p.error)
    ensures !Truthy(p.error) && Truthy(p.pendingToken) ==>
      nav.to == SocialEmail(p.pendingToken.value, KeepIfTruthy(p.provider), KeepIfTruthy(p.name))
    ensures !Truthy(p.error) && !Truthy(p.pendingToken) ==>
      (nav.to == Dashboard <==> HasValidCategory(p) && HasCompletedCategory(p))
      && (nav.to == Dashboard || nav.to == SelectCategory)
  {
    if Truthy(p.error) then Nav(Login(p.error), true)
    else if Truthy(p.pendingToken) then
      Nav(SocialEmail(p.pendingToken.value, KeepIfTruthy(p.provider), KeepIfTruthy(p.name)), true)
    else if HasValidCategory(p) && HasCompletedCategory(p) then Nav(Dashboard, true)
    else Nav(SelectCategory, true)
  }

  /** What the callback stores: nothing on the error and pending-token paths;
      otherwise `token` and `userId`, each only when present, and nothing else. */
  function CallbackWrites(s: Store, p: CallbackParams): (r: Store)
    ensures Truthy(p.error) || Truthy(p.pendingToken) ==> r == s
    ensures forall k :: k != TokenKey && k != UserIdKey ==> Get(r, k) == Get(s, k)
    ensures Get(r, TokenKey) ==
      (if !Truthy(p.error) && !Truthy(p.pendingToken) && Truthy(p.token) then p.token else Get(s, TokenKey))
    ensures Get(r, UserIdKey) ==
      (if !Truthy(p.error) && !Truthy(p.pendingToken) && Truthy(p.userId) then p.userId else Get(s, UserIdKey))
  {
    if Truthy(p.error) || Truthy(p.pendingToken) then s
    else
      var withToken := if Truthy(p.token) then s[TokenKey := p.token.value] else s;
      if Truthy(p.userId) then withToken[UserIdKey := p.userId.value] else withToken
  }

  /** The effect body, step by step. */
  method HandleCallback(ls: LocalStorage, p: CallbackParams) returns (nav: Nav)
    modifies ls
    ensures ls.entries == CallbackWrites(old(ls.entries), p)
    ensures nav == CallbackTarget(p)
  {
    if Truthy(p.error) {
      return Nav(Login(p.error), true);
    }
    if Truthy(p.pendingToken) {
      var provider := if Truthy(p.provider) then p.provider else None;
      var name := if Truthy(p.name) then p.name else None;
      return Nav(SocialEmail(p.pendingToken.value, provider, name), true);
    }
    if Truthy(p.token) {
      ls.SetItem(TokenKey, p.token.value);
    }
    if Truthy(p.userId) {
      ls.SetItem(UserIdKey, p.userId.value);
    }
    var hasValidCategory := HasValidCategory(p);
    var hasCompletedCategory := HasCompletedCategory(p);
    if hasValidCategory && hasCompletedCategory {
      nav := Nav(Dashboard, true);
    } else {
      nav := Nav(SelectCategory, true);
    }
  }

  /** An error parameter overrides everything else the callback carries. */
  lemma ErrorTakesPrecedence(s: Store, p: CallbackParams)
    requires Truthy(p.error)
    ensures CallbackTarget(p) == Nav(Login(p.error), true)
    ensures CallbackWrites(s, p) == s
  {
  }

  /** A pending token (and no error) never stores a session token. */
  lemma PendingTokenStoresNothing(s: Store, p: CallbackParams)
    requires !Truthy(p.error) && Truthy(p.pendingToken)
    ensures CallbackTarget(p).to.SocialEmail?
    ensures CallbackTarget(p).to.token == p.pendingToken.value
    ensures CallbackWrites(s, p) == s
  {
  }
}
