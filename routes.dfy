/**
 The guard stack in front of each view of accounts/views.py and the decision
 it reaches for a request. Decorators apply outermost first, so on every
 `@login_required` route the login check runs before the role check.
 */
module Routes {
  import opened Http
  import D = Decorators

  /** The views of accounts/views.py. */
  datatype Route =
    | Register | Login | Logout | Home | UserPage | AccountSettings
    | Products | CustomerPage | CreateOrder | UpdateOrder | DeleteOrder

  /** One decorator of a stack. */
  datatype Guard =
    | LoginRequired(loginUrl: string)
    | UnauthenticatedUser
    | UsersAllowed(roles: seq<string>)
    | OnlyAdmin

  /** The framework's `login_required(login_url=...)`: an anonymous user is
      redirected to the login URL, a logged-in one reaches the view unchanged. */
  function LoginRequiredGuard(loginUrl: string, req: Request): (o: D.Outcome)
    ensures o.Forward? <==> req.user.authenticated
    ensures o.Forward? ==> o.req == req
    ensures o.Reply? ==> o.resp == Redirect(loginUrl)
  {
    if req.user.authenticated then D.Forward(req) else D.Reply(Redirect(loginUrl))
  }

  function Apply(g: Guard, req: Request): (o: D.Outcome)
    ensures o.Forward? ==> o.req == req
  {
    match g
    case LoginRequired(url) => LoginRequiredGuard(url, req)
    case UnauthenticatedUser => D.UnauthenticatedUser(req)
    case UsersAllowed(roles) => D.UsersAllowed(roles, req)
    case OnlyAdmin => D.OnlyAdmin(req)
  }

  /** A stack of wrappers, outermost first: each one either answers or hands the
      request to the next; past the last one the view itself is called. */
  function Chain(gs: seq<Guard>, req: Request): (o: D.Outcome)
    ensures o.Forward? ==> o.req == req
    decreases |gs|
  {
    if gs == [] then D.Forward(req)
    else match Apply(gs[0], req)
         case Forward(next) => Chain(gs[1..], next)
         case Reply(resp) => D.Reply(resp)
  }

  const AdminRoles: seq<string> := ["admin"]
  const CustomerRoles: seq<string> := ["customer"]

  /** The decorator lines above each view, outermost first. */
  function Guards(route: Route): (gs: seq<Guard>)
    ensures RequiresLogin(route) <==> |gs| == 2 && gs[0] == LoginRequired("login")
    ensures IsAnonymousRoute(route) <==> gs == [UnauthenticatedUser]
    ensures route.Logout? <==> gs == []
    ensures IsAdminRoute(route) ==> gs[1] == UsersAllowed(AdminRoles)
    ensures IsCustomerRoute(route) ==> gs[1] == UsersAllowed(CustomerRoles)
    ensures route.Home? ==> gs[1] == OnlyAdmin
  {
    match route
    case Register => [UnauthenticatedUser]
    case Login => [UnauthenticatedUser]
    case Logout => []
    case Home => [LoginRequired("login"), OnlyAdmin]
    case UserPage => [LoginRequired("login"), UsersAllowed(CustomerRoles)]
    case AccountSettings => [LoginRequired("login"), UsersAllowed(CustomerRoles)]
    case Products => [LoginRequired("login"), UsersAllowed(AdminRoles)]
    case CustomerPage => [LoginRequired("login"), UsersAllowed(AdminRoles)]
    case CreateOrder => [LoginRequired("login"), UsersAllowed(AdminRoles)]
    case UpdateOrder => [LoginRequired("login"), UsersAllowed(AdminRoles)]
    case DeleteOrder => [LoginRequired("login"), UsersAllowed(AdminRoles)]
  }

  /** What the guards of `route` do with `req`. */
  function Dispatch(route: Route, req: Request): (o: D.Outcome)
    ensures o.Forward? ==> o.req == req
    ensures RequiresLogin(route) && !req.user.authenticated ==> o == D.Reply(Redirect("login"))
  {
    Chain(Guards(route), req)
  }

  predicate IsAdminRoute(route: Route)
  {
    route.Products? || route.CustomerPage? || route.CreateOrder? || route.UpdateOrder? || route.DeleteOrder?
  }

  predicate IsCustomerRoute(route: Route)
  {
    route.UserPage? || route.AccountSettings?
  }

  predicate IsAnonymousRoute(route: Route)
  {
    route.Register? || route.Login?
  }

  /** The routes decorated with `@login_required`. */
  predicate RequiresLogin(route: Route)
  {
    route.Home? || IsCustomerRoute(route) || IsAdminRoute(route)
  }

  /** A stack reaches the view exactly when every guard forwards the request,
      and otherwise answers with the reply of the first guard that does not. */
  lemma {:induction false} ChainDecision(gs: seq<Guard>, req: Request)
    ensures Chain(gs, req).Forward? <==> forall i :: 0 <= i < |gs| ==> Apply(gs[i], req).Forward?
    ensures Chain(gs, req).Reply? ==>
              exists k :: 0 <= k < |gs| && Apply(gs[k], req) == Chain(gs, req) &&
                forall j :: 0 <= j < k ==> Apply(gs[j], req).Forward?
    decreases |gs|
  {
    if gs != [] {
      ChainDecision(gs[1..], req);
      if Apply(gs[0], req).Forward? {
        assert forall i :: 1 <= i < |gs| ==> gs[i] == gs[1..][i - 1];
        if Chain(gs, req).Reply? {
          var k :| 0 <= k < |gs[1..]| && Apply(gs[1..][k], req) == Chain(gs[1..], req) &&
                   forall j :: 0 <= j < k ==> Apply(gs[1..][j], req).Forward?;
          assert Apply(gs[k + 1], req) == Chain(gs, req);
          assert forall j :: 0 <= j < k + 1 ==> Apply(gs[j], req).Forward? by {
            forall j | 0 <= j < k + 1 ensures Apply(gs[j], req).Forward? {
              if j > 0 { assert gs[j] == gs[1..][j - 1]; }
            }
          }
        }
      } else {
        assert !Apply(gs[0], req).Forward?;
      }
    }
  }

  /** On every `@login_required` route an anonymous user is redirected to
      `login`, whatever groups it claims: the role guard is never reached. */
  lemma LoginCheckedFirst(route: Route, req: Request)
    requires RequiresLogin(route) && !req.user.authenticated
    ensures Dispatch(route, req) == D.Reply(Redirect("login"))
  {
  }

  /** `registerPage` and `loginPage` send a logged-in user to `home` and let
      anyone else through. */
  lemma AnonymousRoutesDecision(route: Route, req: Request)
    requires IsAnonymousRoute(route)
    ensures req.user.authenticated ==> Dispatch(route, req) == D.Reply(Redirect("home"))
    ensures !req.user.authenticated ==> Dispatch(route, req) == D.Forward(req)
  {
    ChainDecision(Guards(route), req);
  }

  /** `logoutUser` carries no guard. */
  lemma LogoutUnguarded(req: Request)
    ensures Dispatch(Logout, req) == D.Forward(req)
  {
  }

  /** The admin pages run exactly for a logged-in user whose first group is
      `admin`; any other logged-in user gets the "not authorized" text. */
  lemma AdminRoutesDecision(route: Route, req: Request)
    requires IsAdminRoute(route)
    ensures Dispatch(route, req).Forward? <==>
              req.user.authenticated && D.FirstGroupIs(req.user, "admin")
    ensures req.user.authenticated && !D.FirstGroupIs(req.user, "admin") ==>
              Dispatch(route, req) == D.Reply(Text(Unauthorized))
  {
    ChainDecision(Guards(route), req);
  }

  /** The customer pages run exactly for a logged-in user whose first group is
      `customer`; any other logged-in user gets the "not authorized" text. */
  lemma CustomerRoutesDecision(route: Route, req: Request)
    requires IsCustomerRoute(route)
    ensures Dispatch(route, req).Forward? <==>
              req.user.authenticated && D.FirstGroupIs(req.user, "customer")
    ensures req.user.authenticated && !D.FirstGroupIs(req.user, "customer") ==>
              Dispatch(route, req) == D.Reply(Text(Unauthorized))
  {
    ChainDecision(Guards(route), req);
  }

  /** The dashboard: admins see it, customers are sent to `user-page`, and a
      logged-in user with any other first group (or none) gets no response. */
  lemma HomeDecision(req: Request)
    ensures Dispatch(Home, req).Forward? <==>
              req.user.authenticated && D.FirstGroupIs(req.user, "admin")
    ensures req.user.authenticated && D.FirstGroupIs(req.user, "customer") ==>
              Dispatch(Home, req) == D.Reply(Redirect("user-page"))
    ensures req.user.authenticated && !D.FirstGroupIs(req.user, "admin") &&
            !D.FirstGroupIs(req.user, "customer") ==>
              Dispatch(Home, req) == D.Reply(NoResponse)
  {
    ChainDecision(Guards(Home), req);
  }

  /** On every route, two users who agree on being logged in and on their first
      group get the same decision: groups after the first are never read. */
  lemma DispatchReadsFirstGroupOnly(route: Route, req: Request, user': User)
    requires user'.authenticated == req.user.authenticated
    requires D.FirstGroup(user') == D.FirstGroup(req.user)
    ensures Dispatch(route, req.(user := user')).Forward? == Dispatch(route, req).Forward?
    ensures Dispatch(route, req).Reply? ==> Dispatch(route, req.(user := user')) == Dispatch(route, req)
  {
    var req' := req.(user := user');
    ChainDecision(Guards(route), req);
    ChainDecision(Guards(route), req');
    if IsAdminRoute(route) {
      AdminRoutesDecision(route, req);
      AdminRoutesDecision(route, req');
    } else if IsCustomerRoute(route) {
      CustomerRoutesDecision(route, req);
      CustomerRoutesDecision(route, req');
    } else if route.Home? {
      HomeDecision(req);
      HomeDecision(req');
    } else if IsAnonymousRoute(route) {
      AnonymousRoutesDecision(route, req);
      AnonymousRoutesDecision(route, req');
    }
  }
}
