/** The login page (src/components/Login.js): it shows an OAuth error passed in
    the query, tidies the `#_=_` fragment some providers append, keeps the form
    fields and a status, and on submit stores the session and routes on the
    shop category. */
module Login {
  import opened JsText
  import opened Storage
  import opened Auth
  import opened Routing

  const DefaultApiUrl := "http://localhost:5000/api"

  /** `API_URL`: the configured value, or the local default when unset or empty. */
  function ApiUrl(env: Option<string>): (r: string)
    ensures r != ""
    ensures Truthy(env) ==> r == env.value
    ensures !Truthy(env) ==> r == DefaultApiUrl
  {
    OrDefault(env, DefaultApiUrl)
  }

  /** `handleSocialLogin(provider)`: the backend's OAuth entry point for the provider. */
  function SocialLoginUrl(apiUrl: string, provider: string): (r: string)
    ensures StartsWith(r, apiUrl) && EndsWith(r, provider)
    ensures |r| == |apiUrl| + 6 + |provider| && r[|apiUrl|..|apiUrl| + 6] == "/auth/"
  {
    apiUrl + "/auth/" + provider
  }

  const Fragment := "#_=_"

  /** `href.replace(/#_=_$/, "")`: one trailing `#_=_` removed. */
  function StripFragment(href: string): (r: string)
    ensures EndsWith(href, Fragment) ==> r + Fragment == href
    ensures !EndsWith(href, Fragment) ==> r == href
  {
    if EndsWith(href, Fragment) then href[..|href| - |Fragment|] else href
  }

  /** The URL the mount effect writes into the history: only when the hash is exactly `#_=_`. */
  function CleanedUrl(href: string, hash: string): (r: Option<string>)
    ensures r.Some? <==> hash == Fragment
    ensures r.Some? ==> r.value == StripFragment(href)
  {
    if hash == Fragment then Some(StripFragment(href)) else None
  }

  /** The body of a successful `POST /auth/login`; `user` stands for `user.id`
      and `user.category` when a user object is present. */
  datatype LoginData = LoginData(
    token: Option<string>,
    userIdOfUser: Option<string>,
    userId: Option<string>,
    categoryOfUser: Option<string>,
    category: Option<string>)

  /** The answer to the login request: a response whose body may be missing
      (reading `.token` from it then throws), or the rejection with the
      server's `error` text. */
  datatype LoginAnswer =
    | Answered(data: Option<LoginData>)
    | Failed(error: Option<string>)

  const FailureMessage := "Unable to log in. Please try again."

  /** `localStorage.setItem("token", v)` stores `String(v)`, so a missing token
      is stored as the text "undefined". */
  function StoredToken(token: Option<string>): string {
    token.GetOr("undefined")
  }

  /** The user id the page stores: `user.id`, else `userId`. */
  function ChosenUserId(d: LoginData): (r: Option<string>)
    ensures Truthy(r) <==> Truthy(d.userIdOfUser) || Truthy(d.userId)
    ensures Truthy(d.userIdOfUser) ==> r == d.userIdOfUser
  {
    Or(d.userIdOfUser, d.userId)
  }

  /** The store after a successful login: the token always, the user id when
      there is one, nothing else. */
  function LoginWrites(s: Store, d: LoginData): (r: Store)
    ensures forall k :: k != TokenKey && k != UserIdKey ==> Get(r, k) == Get(s, k)
    ensures Get(r, TokenKey) == Some(StoredToken(d.token))
    ensures Get(r, UserIdKey) == if Truthy(ChosenUserId(d)) then ChosenUserId(d) else Get(s, UserIdKey)
  {
    var withToken := s[TokenKey := StoredToken(d.token)];
    var id := ChosenUserId(d);
    if Truthy(id) then withToken[UserIdKey := id.value] else withToken
  }

  /** Where a successful login goes: the dashboard iff the user's or the
      response's category is set; a push, not a replace. */
  function LoginTarget(d: LoginData): (nav: Nav)
    ensures !nav.replace
    ensures nav.to == Dashboard <==> Truthy(d.categoryOfUser) || Truthy(d.category)
    ensures nav.to != Dashboard ==> nav.to == SelectCategory
  {
    if Truthy(Or(d.categoryOfUser, d.category)) then Nav(Dashboard, false) else Nav(SelectCategory, false)
  }

  datatype Field = Email | Password

  class LoginPage {
    var email: string
    var password: string
    var status: Status

    constructor ()
      ensures email == "" && password == "" && status == Status(false, "")
    {
      email := "";
      password := "";
      status := Status(false, "");
    }

    /** The query part of the mount effect: an `error` parameter becomes the
        shown error; without one the status is kept. */
    method ApplyQuery(errorParam: Option<string>)
      modifies this
      ensures Truthy(errorParam) ==> status == Status(false, errorParam.value)
      ensures !Truthy(errorParam) ==> status == old(status)
      ensures email == old(email) && password == old(password)
    {
      if Truthy(errorParam) {
        status := Status(false, errorParam.value);
      }
    }

    /** `handleChange(field, value)`: only the named field changes, and the error clears. */
    method HandleChange(field: Field, value: string)
      modifies this
      ensures field == Email ==> email == value && password == old(password)
      ensures field == Password ==> password == value && email == old(email)
      ensures status == Status(old(status).loading, "")
    {
      match field {
        case Email => email := value;
        case Password => password := value;
      }
      status := status.(error := "");
    }

    /** `handleSubmit`: loading, then either the session is stored and the page
        routes on the category with the status cleared, or the error is shown
        and nothing is stored or navigated. */
    method HandleSubmit(ls: LocalStorage, answer: LoginAnswer) returns (nav: Option<Nav>)
      modifies this, ls
      ensures answer.Answered? && answer.data.Some? ==>
        && ls.entries == LoginWrites(old(ls.entries), answer.data.value)
        && nav == Some(LoginTarget(answer.data.value))
        && status == Status(false, "")
      ensures answer.Answered? && answer.data.None? ==>
        ls.entries == old(ls.entries) && nav.None? && status == Status(false, FailureMessage)
      ensures answer.Failed? ==>
        && ls.entries == old(ls.entries) && nav.None?
        && status == Status(false, OrDefault(answer.error, FailureMessage))
      ensures email == old(email) && password == old(password)
    {
      status := Status(true, "");
      match answer
      case Failed(error) =>
        status := Status(false, OrDefault(error, FailureMessage));
        return None;
      case Answered(data) =>
        if data.None? {
          // reading `.token` of a missing body throws a TypeError, which has no `response`
          status := Status(false, FailureMessage);
          return None;
        }
        var d := data.value;
        ls.SetItem(TokenKey, StoredToken(d.token));
        if Truthy(d.userIdOfUser) || Truthy(d.userId) {
          var userId := ChosenUserId(d);
          ls.SetItem(UserIdKey, userId.value);
        }
        var hasCategory := Or(d.categoryOfUser, d.category);
        if Truthy(hasCategory) {
          nav := Some(Nav(Dashboard, false));
        } else {
          nav := Some(Nav(SelectCategory, false));
        }
        status := Status(false, "");
    }
  }

  /** A successful login always leaves a `token` entry, so the visitor passes the
      route guard unless the stored text is empty. */
  lemma LoginSignsIn(s: Store, d: LoginData)
    ensures IsAuthenticated(LoginWrites(s, d)) <==> StoredToken(d.token) != ""
    ensures !Truthy(d.token) && d.token != Some("") ==> Get(LoginWrites(s, d), TokenKey) == Some("undefined")
  {
  }

  /** Stripping applies once: a URL ending in two fragments keeps one. */
  lemma StripFragmentOnce(base: string)
    ensures StripFragment(base + Fragment + Fragment) == base + Fragment
  {
    var u := base + Fragment + Fragment;
    assert u[|u| - |Fragment|..] == Fragment;
    assert u[..|u| - |Fragment|] == base + Fragment;
  }
}
