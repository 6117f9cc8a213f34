/** The e-mail capture page for social sign-ins without an address
    (src/components/SocialEmail.js): it reads the pending token from the query,
    sends the visitor back to login when there is none, and on submit completes
    the sign-in, storing what the server returns and routing on the shop
    category. */
module SocialEmail {
  import opened JsText
  import opened Storage
  import opened Auth
  import opened Routing

  /** `API_URL`: a configured base without its trailing slashes, then `/api`;
      the relative `/api` when the variable is unset or empty. */
  function ApiUrl(env: Option<string>): (r: string)
    ensures !Truthy(env) ==> r == "/api"
    ensures EndsWith(r, "/api")
    ensures Truthy(env) ==> StartsWith(env.value, r[..|r| - 4])
    ensures Truthy(env) ==> forall i :: |r| - 4 <= i < |env.value| ==> env.value[i] == '/'
    ensures Truthy(env) ==> |r| == 4 || r[|r| - 5] != '/'
  {
    if Truthy(env) then StripTrailing(env.value, '/') + "/api" else "/api"
  }

  datatype QueryParams = QueryParams(
    token: Option<string>,
    pendingToken: Option<string>,
    provider: Option<string>,
    name: Option<string>)

  /** The pending token: `token`, falling back to `pendingToken`. */
  function PendingToken(q: QueryParams): (r: Option<string>)
    ensures Truthy(q.token) ==> r == q.token
    ensures !Truthy(q.token) ==> r == q.pendingToken
    ensures Truthy(r) <==> Truthy(q.token) || Truthy(q.pendingToken)
  {
    Or(q.token, q.pendingToken)
  }

  function ProviderName(q: QueryParams): (r: string)
    ensures r != ""
    ensures Truthy(q.provider) ==> r == q.provider.value
    ensures !Truthy(q.provider) ==> r == "facebook"
  {
    OrDefault(q.provider, "facebook")
  }

  function DisplayName(q: QueryParams): (r: string)
    ensures r != ""
    ensures Truthy(q.name) ==> r == q.name.value
    ensures !Truthy(q.name) ==> r == "your account"
  {
    OrDefault(q.name, "your account")
  }

  /** The mount effect: a replacing redirect to login iff there is no pending token. */
  function MountRedirect(q: QueryParams): (r: Option<Nav>)
    ensures r.Some? <==> !Truthy(PendingToken(q))
    ensures r.Some? ==> r.value == Nav(Login(None), true)
  {
    if !Truthy(PendingToken(q)) then Some(Nav(Login(None), true)) else None
  }

  datatype CompletedUser = CompletedUser(id: Option<string>, shopCategory: Option<string>)

  /** The answer to `POST /auth/social/complete-email`: a body (absent fields are
      None; an absent body reads as `{}`), or the rejection with the server's
      `error` text. */
  datatype Completion =
    | Completed(token: Option<string>, user: Option<CompletedUser>)
    | Rejected(error: Option<string>)

  const FailureMessage := "Unable to complete sign-in. Please try again."

  /** The store after a completed sign-in: `token` when the body has one,
      `userId` when the user has an id; nothing else. */
  function CompletionWrites(s: Store, token: Option<string>, user: Option<CompletedUser>): (r: Store)
    ensures forall k :: k != TokenKey && k != UserIdKey ==> Get(r, k) == Get(s, k)
    ensures Get(r, TokenKey) == if Truthy(token) then token else Get(s, TokenKey)
    ensures Get(r, UserIdKey) == if user.Some? && Truthy(user.value.id) then user.value.id else Get(s, UserIdKey)
  {
    var withToken := if Truthy(token) then s[TokenKey := token.value] else s;
    if user.Some? && Truthy(user.value.id) then withToken[UserIdKey := user.value.id.value] else withToken
  }

  /** Where a completed sign-in goes: the dashboard iff the user has a shop category. */
  function CompletionTarget(user: Option<CompletedUser>): (nav: Nav)
    ensures nav.replace
    ensures nav.to == Dashboard <==> user.Some? && Truthy(user.value.shopCategory)
    ensures nav.to != Dashboard ==> nav.to == SelectCategory
  {
    if user.Some? && Truthy(user.value.shopCategory) then Nav(Dashboard, true) else Nav(SelectCategory, true)
  }

  /** The error shown after a rejected completion: the server's text or the fallback. */
  function RejectionMessage(error: Option<string>): (m: string)
    ensures m != ""
    ensures Truthy(error) ==> m == error.value
    ensures !Truthy(error) ==> m == FailureMessage
  {
    OrDefault(error, FailureMessage)
  }

  class SocialEmailPage {
    const query: QueryParams
    var email: string
    var status: Status

    constructor (q: QueryParams)
      ensures query == q && email == "" && status == Status(false, "")
    {
      query := q;
      email := "";
      status := Status(false, "");
    }

    /** `handleSubmit`: a no-op without a pending token; otherwise the status
        goes to loading, and then either the completion is stored and routed
        with the status cleared, or the rejection's message is shown and
        nothing is stored or navigated. */
    method HandleSubmit(ls: LocalStorage, answer: Completion) returns (nav: Option<Nav>)
      modifies this, ls
      ensures !Truthy(PendingToken(query)) ==>
        nav.None? && status == old(status) && ls.entries == old(ls.entries)
      ensures Truthy(PendingToken(query)) && answer.Completed? ==>
        && ls.entries == CompletionWrites(old(ls.entries), answer.token, answer.user)
        && nav == Some(CompletionTarget(answer.user))
        && status == Status(false, "")
      ensures Truthy(PendingToken(query)) && answer.Rejected? ==>
        && ls.entries == old(ls.entries)
        && nav.None?
        && status == Status(false, RejectionMessage(answer.error))
      ensures email == old(email)
    {
      var pendingToken := PendingToken(query);
      if !Truthy(pendingToken) {
        return None;
      }
      status := Status(true, "");
      match answer
      case Rejected(error) =>
        status := Status(false, RejectionMessage(error));
        return None;
      case Completed(token, user) =>
        if Truthy(token) {
          ls.SetItem(TokenKey, token.value);
        }
        if user.Some? && Truthy(user.value.id) {
          ls.SetItem(UserIdKey, user.value.id.value);
        }
        nav := Some(CompletionTarget(user));
        status := Status(false, "");
    }
  }

  /** A completion that returns a token leaves the visitor signed in, and the
      stored user id is the one returned when there is one. */
  lemma CompletionSignsIn(s: Store, token: Option<string>, user: Option<CompletedUser>)
    requires Truthy(token)
    ensures IsAuthenticated(CompletionWrites(s, token, user))
    ensures user.Some? && Truthy(user.value.id) ==> GetUserId(CompletionWrites(s, token, user)) == user.value.id
  {
  }
}
