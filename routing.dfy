/** The application's route gate: a pure decision from the session
    holder's `loading` flag, its `user` and the requested path. */
module Routing {
  import opened Js
  import opened AuthContext

  /** The pages of the application. The sign-in page exists but no route
      leads to it. */
  datatype Page = AuthPage | SignInPage | HomePage

  datatype Screen = Loading | Render(page: Page) | Redirect(to: string)

  const AuthPath := "/auth"
  const HomePath := "/"

  /** While the session probe is outstanding, a placeholder; signed out,
      only "/auth" renders (the sign-up page) and everything else goes
      there; signed in, only "/" renders (the notes page) and everything
      else goes there. */
  function Route(loading: bool, user: Option<User>, path: string): (s: Screen)
    ensures loading <==> s == Loading
    ensures s != Render(SignInPage)
    ensures !loading && user.None? ==> (s == Render(AuthPage) <==> path == AuthPath)
    ensures !loading && user.None? && path != AuthPath ==> s == Redirect(AuthPath)
    ensures !loading && user.Some? ==> (s == Render(HomePage) <==> path == HomePath)
    ensures !loading && user.Some? && path != HomePath ==> s == Redirect(HomePath)
  {
    if loading then Loading
    else if user.None? then
      if path == AuthPath then Render(AuthPage) else Redirect(AuthPath)
    else
      if path == HomePath then Render(HomePage) else Redirect(HomePath)
  }

  /** A redirect target is a fixed point: routing it in the same state
      renders a page. */
  lemma RedirectSettles(loading: bool, user: Option<User>, path: string)
    requires Route(loading, user, path).Redirect?
    ensures Route(loading, user, Route(loading, user, path).to).Render?
    ensures Route(loading, user, Route(loading, user, path).to).page != SignInPage
  {
  }

  /** The screen the application shows for `path` given the session holder. */
  function AppScreen(ctx: AuthProvider, path: string): Screen
    reads ctx
  {
    Route(ctx.loading, ctx.user, path)
  }

  /** The gate reads whether there is a user and whether the probe is
      outstanding: neither the session nor the user's identity matters. */
  lemma ScreenIgnoresSession(a: AuthProvider, b: AuthProvider, path: string)
    requires a.loading == b.loading && a.user.Some? == b.user.Some?
    ensures AppScreen(a, path) == AppScreen(b, path)
  {
  }

  /** Once a session is published and the probe is settled, the notes page
      is reachable from every path in at most one redirect. */
  lemma SessionShowsHome(s: Session, path: string)
    ensures Route(false, UserOf(Some(s)), HomePath) == Render(HomePage)
    ensures Route(false, UserOf(Some(s)), path) in {Render(HomePage), Redirect(HomePath)}
  {
  }
}
