/** The routes the session screens navigate to, with the query parameters they
    carry. A navigation either pushes a history entry or replaces the current one. */
module Routing {
  import opened JsText

  datatype Route =
    | Home                                  // "/"
    | Login(error: Option<string>)          // "/login", "/login?error=..."
    | SocialEmail(token: string, provider: Option<string>, name: Option<string>)
                                            // "/social-email?token=...[&provider=...][&name=...]"
    | Dashboard                             // "/dashboard"
    | SelectCategory                        // "/select-category"
    | Signup                                // "/signup"

  datatype Nav = Nav(to: Route, replace: bool)

  /** The `{ loading, error }` status object that the form screens keep; an
      empty `error` shows no message. */
  datatype Status = Status(loading: bool, error: string)
}
