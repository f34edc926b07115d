/**
 `loginPage` and `logoutUser`: the two views whose effect is on the session
 rather than on stored records. Whether `authenticate` finds the user is
 taken as given.
 */
module Session {
  import opened Http
  import D = Decorators
  import R = Routes

  /** `loginPage`'s body (behind `unauthenticated_user`): a POST with matching
      credentials logs in and goes to `home`; anything else shows the login page. */
  function LoginPage(req: Request, credentialsMatch: bool): (resp: Response)
    ensures resp == Redirect("home") <==> req.verb == Post && credentialsMatch
    ensures resp != Redirect("home") ==> resp == Page("accounts/login.html")
  {
    if req.verb == Post && credentialsMatch then Redirect("home")
    else Page("accounts/login.html")
  }

  /** `logoutUser`: the session's user becomes the anonymous one, and the
      answer is a redirect to `login`. */
  function LogoutUser(req: Request): (r: (User, Response))
    ensures !r.0.authenticated && r.0.groups == []
    ensures r.1 == Redirect("login")
  {
    (Anonymous, Redirect("login"))
  }

  /** After logging out, every `@login_required` page sends the browser back
      to `login`, whichever groups the user had before. */
  lemma LoggedOutUserSentToLogin(route: R.Route, req: Request)
    requires R.RequiresLogin(route)
    ensures R.Dispatch(route, req.(user := LogoutUser(req).0)) == D.Reply(Redirect("login"))
  {
    R.LoginCheckedFirst(route, req.(user := LogoutUser(req).0));
  }

  /** A logged-in user who opens the login page is sent to `home` by the guard,
      so the login form is only ever reached anonymously. */
  lemma LoginFormOnlyForAnonymous(req: Request)
    ensures R.Dispatch(R.Login, req).Forward? <==> !req.user.authenticated
    ensures req.user.authenticated ==> R.Dispatch(R.Login, req) == D.Reply(Redirect("home"))
  {
    R.AnonymousRoutesDecision(R.Login, req);
  }
}
