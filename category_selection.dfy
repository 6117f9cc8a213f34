/** The shop-category picker (src/components/CategorySelection.js): it sends the
    chosen category to the backend and, depending on the answer, stores it in
    the user's namespace and opens the dashboard, ends the session, or shows an
    error; `loading` is off again at the end of every path. */
module CategorySelection {
  import opened JsText
  import opened Storage
  import opened Auth
  import opened Routing

  /** `API_URL`: the configured base (or `http://localhost:5000`) without its
      trailing slashes, then `/api`. */
  function ApiUrl(env: Option<string>): (r: string)
    ensures var base := OrDefault(env, "http://localhost:5000");
            && EndsWith(r, "/api") && StartsWith(base, r[..|r| - 4])
            && (forall i :: |r| - 4 <= i < |base| ==> base[i] == '/')
            && (|r| == 4 || r[|r| - 5] != '/')
  {
    StripTrailing(OrDefault(env, "http://localhost:5000"), '/') + "/api"
  }

  /** The categories offered, in display order. */
  const Categories: seq<string> := ["Computer Shop", "Grocery Store", "Clothing Store", "Pharmacy", "Restaurant"]

  const UserCategoryKey := "userCategory"
  const AuthRequiredMessage := "Authentication required. Please login."
  const SessionExpiredMessage := "Session expired or invalid. Please login again."
  const UpdateFailedMessage := "Failed to update category. Please try again."

  /** The answer to `PUT /auth/update-category`: a response whose body may be
      empty, or a failure with the HTTP status, the body's `error` and `message`
      texts, and the exception's own `message` (all absent on a network error). */
  datatype UpdateAnswer =
    | Updated(hasData: bool)
    | Failed(status: Option<int>, error: Option<string>, message: Option<string>, errMessage: Option<string>)

  /** How a failed update is handled, tested in this order. */
  datatype FailureKind = EndpointMissing | SessionInvalid | Unexpected(message: string)

  /** `x?.includes(p)` on a possibly-absent text. */
  predicate Mentions(x: Option<string>, p: string) {
    x.Some? && Includes(x.value, p)
  }

  function Classify(status: Option<int>, error: Option<string>, message: Option<string>, errMessage: Option<string>): (k: FailureKind)
    ensures k == EndpointMissing <==> status == Some(404) || Mentions(error, "Cannot")
    ensures k == SessionInvalid <==>
      !(status == Some(404) || Mentions(error, "Cannot"))
      && (status == Some(401) || status == Some(403) || Mentions(error, "access denied"))
    ensures k.Unexpected? ==> k.message != ""
    ensures k.Unexpected? && Truthy(error) ==> k.message == error.value
    ensures k.Unexpected? && !Truthy(error) && Truthy(message) ==> k.message == message.value
    ensures k.Unexpected? && !Truthy(error) && !Truthy(message) ==> k.message == OrDefault(errMessage, UpdateFailedMessage)
  {
    if status == Some(404) || Mentions(error, "Cannot") then EndpointMissing
    else if status == Some(401) || status == Some(403) || Mentions(error, "access denied") then SessionInvalid
    else Unexpected(OrDefault(Or(error, Or(message, errMessage)), UpdateFailedMessage))
  }

  /** What one selection leads to: the new store, the error shown, and where the
      page goes. */
  datatype Outcome = Outcome(store: Store, error: string, nav: Option<Nav>)

  function SelectOutcome(s: Store, category: string, answer: UpdateAnswer): (o: Outcome)
    ensures !IsAuthenticated(s) ==> o == Outcome(s, AuthRequiredMessage, Some(Nav(Login(None), false)))
    ensures IsAuthenticated(s) && answer.Updated? && answer.hasData ==>
      o == Outcome(WithUserData(s, UserCategoryKey, category), "", Some(Nav(Dashboard, false)))
    ensures IsAuthenticated(s) && answer.Updated? && !answer.hasData ==> o == Outcome(s, "", None)
    ensures IsAuthenticated(s) && answer.Failed? ==>
      match Classify(answer.status, answer.error, answer.message, answer.errMessage)
      case EndpointMissing => o == Outcome(WithUserData(s, UserCategoryKey, category), "", Some(Nav(Dashboard, false)))
      case SessionInvalid => o == Outcome(s - {TokenKey}, SessionExpiredMessage, Some(Nav(Login(None), false)))
      case Unexpected(m) => o == Outcome(s, m, None)
  {
    if !IsAuthenticated(s) then Outcome(s, AuthRequiredMessage, Some(Nav(Login(None), false)))
    else
      match answer
      case Updated(hasData) =>
        if hasData then Outcome(WithUserData(s, UserCategoryKey, category), "", Some(Nav(Dashboard, false)))
        else Outcome(s, "", None)
      case Failed(status, error, message, errMessage) =>
        match Classify(status, error, message, errMessage)
        case EndpointMissing => Outcome(WithUserData(s, UserCategoryKey, category), "", Some(Nav(Dashboard, false)))
        case SessionInvalid => Outcome(s - {TokenKey}, SessionExpiredMessage, Some(Nav(Login(None), false)))
        case Unexpected(m) => Outcome(s, m, None)
  }

  class CategoryPage {
    var selectedCategory: string
    var loading: bool
    var error: string

    constructor ()
      ensures selectedCategory == "" && !loading && error == ""
    {
      selectedCategory := "";
      loading := false;
      error := "";
    }

    /** `handleCategorySelect(category)`, with the delayed redirect of an
        expired session taken as immediate. */
    method HandleCategorySelect(ls: LocalStorage, category: string, answer: UpdateAnswer) returns (nav: Option<Nav>)
      modifies this, ls
      ensures ls.entries == SelectOutcome(old(ls.entries), category, answer).store
      ensures error == SelectOutcome(old(ls.entries), category, answer).error
      ensures nav == SelectOutcome(old(ls.entries), category, answer).nav
      ensures selectedCategory == category && !loading
    {
      loading := true;
      error := "";
      selectedCategory := category;
      nav := None;
      var token := ls.GetItem(TokenKey);
      if !Truthy(token) {
        error := AuthRequiredMessage;
        nav := Some(Nav(Login(None), false));
      } else {
        match answer {
          case Updated(hasData) =>
            if hasData {
              SetUserData(ls, UserCategoryKey, category);
              nav := Some(Nav(Dashboard, false));
            }
          case Failed(status, err, message, errMessage) =>
            var kind := Classify(status, err, message, errMessage);
            match kind {
              case EndpointMissing =>
                SetUserData(ls, UserCategoryKey, category);
                nav := Some(Nav(Dashboard, false));
              case SessionInvalid =>
                error := SessionExpiredMessage;
                ls.RemoveItem(TokenKey);
                nav := Some(Nav(Login(None), false));
              case Unexpected(m) =>
                error := m;
            }
        }
      }
      loading := false;
    }
  }

  /** The emblem drawn beside a category. */
  datatype Icon = Computer | Grocery | Clothing | Medicine | Dining | Shop

  /** `getCategoryIcon(category)`: each offered category has its own emblem;
      anything else gets the generic shop. */
  function CategoryIcon(category: string): (i: Icon)
    ensures i == Shop <==> category !in Categories
  {
    if category == "Computer Shop" then Computer
    else if category == "Grocery Store" then Grocery
    else if category == "Clothing Store" then Clothing
    else if category == "Pharmacy" then Medicine
    else if category == "Restaurant" then Dining
    else Shop
  }

  /** Distinct categories never share an emblem. */
  lemma IconsDistinct(a: string, b: string)
    requires a in Categories && b in Categories && a != b
    ensures CategoryIcon(a) != CategoryIcon(b)
  {
  }

  /** An accepted selection (or a missing endpoint) leaves the category readable
      in the user's namespace, unless the namespaced key would be `userId` itself. */
  lemma SelectionStored(s: Store, category: string, answer: UpdateAnswer)
    requires IsAuthenticated(s)
    requires answer == Updated(true) || (answer.Failed? && answer.status == Some(404))
    requires GetUserKey(s, UserCategoryKey) != UserIdKey
    ensures GetUserData(SelectOutcome(s, category, answer).store, UserCategoryKey, "") == Parsed(category)
    ensures SelectOutcome(s, category, answer).nav == Some(Nav(Dashboard, false))
  {
    UserDataRoundTrip(s, UserCategoryKey, category, "");
  }

  /** An expired session loses its token but keeps the user id. */
  lemma ExpiredSessionKeepsUser(s: Store, category: string, answer: UpdateAnswer)
    requires IsAuthenticated(s) && answer.Failed? && answer.status == Some(401)
    requires !Mentions(answer.error, "Cannot")
    ensures !IsAuthenticated(SelectOutcome(s, category, answer).store)
    ensures GetUserId(SelectOutcome(s, category, answer).store) == GetUserId(s)
  {
  }
}
